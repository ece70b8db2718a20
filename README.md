# HBase client connection core, in Dafny

This project models the deterministic core of the HBase client's connection
manager (`HConnectionManager` and its inner `HConnectionImplementation`), and
proves properties about it. It covers six parts.

- **The region-location cache.** Each table has a map from region start key
  to the last known region location, ordered by unsigned byte order. Beside
  it is the set of servers that cached locations may name. The model covers
  the lookup (`getCachedLocation`), the staleness rule of `cacheLocation`,
  bulk invalidation by server (`clearCaches`), every delete and clear
  operation, and the reaction to a server's error (`updateCachedLocations`).
- **The resolver `locateRegionInMeta`.** This is the bounded retry loop that
  asks the catalog table `.META.` for the region of a row. It validates the
  answer in a fixed order and caches it. What each catalog attempt answers
  is an oracle.
- **`ServerErrorTracker`.** It keeps per-server error records. It computes a
  retry deadline and a clamped backoff.
- **The batch `Process` behind `processBatchCallback`.** Actions are grouped
  per region server and sent. Each answer is classified as a success, an
  error recorded for good, or a retry. Retries are counted per action, with
  a high-water mark. A last-retry decision latches `noRetry`. When the batch
  has nothing left in flight, every action is a success or an error, exactly
  once.
- **The connection lifecycle.** This covers:
  - the reference count;
  - the idempotent `internalClose`;
  - keep-alive leases for the ZooKeeper watcher and the two master services,
    swept by the `DelayedClosing` chore;
  - the process-wide registry of managed connections (`getConnection` and
    `deleteConnection`).
- **The stub pool of `getClient` and `getAdmin`.** It is a create-once,
  get-or-create map keyed by `service@host:port`. A server known to be dead
  is refused.

Mutable objects of the source are classes whose methods update fields in
place:
- the cache is `LocationCache.RegionLocationCache`;
- the batch is `BatchProcess.Process`, with the `nbRetries` array as an
  `array<int>`;
- the tracker is `ErrorTracker.ServerErrorTracker`;
- the connection and its master-service states are `Connections.Connection`
  and `Connections.MasterServiceState`;
- the registry is `ConnectionRegistry.Registry`.

Each method states its object's whole new state: as a function on values of
the old state, or, in the registry, as a relation between the old and the
new registry and connection states. The properties are proved about those
functions and relations.

Time, I/O and the cluster are parameters:
- the clock is `now`, or `clock(t)` for the t-th reading;
- the catalog's answers are `meta(tries)`;
- where a batch row is located is `locate(submit, action)`;
- which request completes next is `pick(n)`;
- what each server answers is `taskFails(n)` and `reply(n, action)`;
- whether a server is dead is `dead` (the cluster status listener);
- whether the master answers is `running`;
- whether a stub can be made is `made`;
- the RPC channel of a new stub is `channel`;
- the pause schedule `ConnectionUtils.getPauseTime` is `pauseTime`.

Files, in dependency order:

| file | contents |
|---|---|
| `wrappers.dfy` | `Option` and `Result` |
| `bytes.dfy` | bytes, their unsigned lexicographic order, the sorted map's `lowerKey` |
| `locations.dfy` | `ServerName`, `RegionInfo`, `Location`, `host:port` |
| `location_cache.dfy` | the cache as a value, its operations as functions, and the class `RegionLocationCache` |
| `resolver.dfy` | validation of a catalog row, the prefetch visitor, `locateRegion`, and `locateRegionInMeta` as a loop proved against a recursive specification |
| `error_tracker.dfy` | `ServerErrorTracker` and the tracker timeout computed by the connection |
| `batch_process.dfy` | `Process`: grouping, classification, `addToReplay`, and the main loop with its invariant and measure |
| `keep_alive.dfy` | one kept-alive resource: acquire, release, expire, sweep; Java `long` wrap-around |
| `stub_pool.dfy` | stub keys and get-or-create |
| `lifecycle.dfy` | one connection's whole state as a value, every lifecycle operation as a function, and the invariant over any sequence of operations |
| `connection.dfy` | the classes `MasterServiceState` and `Connection` |
| `registry.dfy` | the registry `CONNECTION_INSTANCES` |

Two behaviours of the code are worth noting.
- **The staleness rule of `cacheLocation`.** An update read from the catalog
  counts as stale only when the cached sequence number is strictly greater.
  An equal sequence number replaces the entry.
- **The retry check of `locateRegionInMeta`.** The loop allows
  `localNumRetries` attempts. A caught error is rethrown only when
  `tries >= numTries - 1`, not when `tries >= localNumRetries - 1`. So with
  `retry` off and `numTries >= 2`, the error of the single attempt is
  swallowed, and the loop then throws `NoServerForRegionException`. The model
  keeps this behaviour (`Resolver.LocateFrom`, `Resolver.NoRetryReplacesError`).

## Model

Source cells give paths relative to the repository root.

| member | source | states |
|---|---|---|
| Bytes.LowerKey | hbase-client/src/main/java/org/apache/hadoop/hbase/client/HConnectionManager.java:1045-1048 | the floor lookup of the sorted table map: the greatest key strictly below the row, and None exactly when no key is below it |
| LocationCache.CachedLocation | hbase-client/src/main/java/org/apache/hadoop/hbase/client/HConnectionManager.java:1029-1064 | an exact start-key match is returned; otherwise a hit exists iff the greatest start key below the row has an empty end key or one above the row, and the hit is that entry |
| LocationCache.CachedLocationIsStored | hbase-client/src/main/java/org/apache/hadoop/hbase/client/HConnectionManager.java:1029-1064 | in a consistent cache a returned location is the entry stored under its own start key, of the table asked for, with start key at or below the row |
| LocationCache.CachedKeyHits | hbase-client/src/main/java/org/apache/hadoop/hbase/client/HConnectionManager.java:1040-1043 | looking up any cached start key hits |
| LocationCache.NumberOfCachedRegionLocations | hbase-client/src/main/java/org/apache/hadoop/hbase/client/HConnectionManager.java:2494-2503 | the count is zero iff the lookup misses for every row of the table |
| LocationCache.Put | hbase-client/src/main/java/org/apache/hadoop/hbase/client/HConnectionManager.java:1159-1189 | a new start key is stored; a redirect from the cached server is stored; a catalog update is ignored iff the cached seqNum is greater, any other redirect iff it is greater or equal; the server joins the set in every case; other tables unchanged; the cache invariant is kept |
| LocationCache.NewestUpdateWins | hbase-client/src/main/java/org/apache/hadoop/hbase/client/HConnectionManager.java:1172-1184 | updates of one region with increasing sequence numbers, above the cached one, leave the newest in the cache and make the lookup return it, whatever their sources |
| LocationCache.ClearServer | hbase-client/src/main/java/org/apache/hadoop/hbase/client/HConnectionManager.java:1095-1115 | no change for a server outside the set; otherwise exactly the entries on that server go from every table and the server leaves the set; the invariant is kept |
| LocationCache.ClearServerRemovesExactly | hbase-client/src/main/java/org/apache/hadoop/hbase/client/HConnectionManager.java:478-483 | the absence guarantee: in a consistent cache, with or without the short cut, afterwards exactly the entries on other servers remain and none names the server |
| LocationCache.DeleteLocation | hbase-client/src/main/java/org/apache/hadoop/hbase/client/HConnectionManager.java:2015-2030 | the entry at the region's start key goes iff there is one and the source is null or names its server; every other key and table is unchanged |
| LocationCache.DeleteRegion | hbase-client/src/main/java/org/apache/hadoop/hbase/client/HConnectionManager.java:2033-2052 | null changes nothing; otherwise the entry at the location's start key goes whatever server it names, nothing else changes |
| LocationCache.ForceDelete | hbase-client/src/main/java/org/apache/hadoop/hbase/client/HConnectionManager.java:1071-1089 | the entry the lookup returns for the row goes, and nothing else; on a miss nothing changes |
| LocationCache.UpdateLocations | hbase-client/src/main/java/org/apache/hadoop/hbase/client/HConnectionManager.java:2061-2093 | no change on a miss or for an opening region; a move re-caches the region on the new server unless stale; any other error deletes the entry iff it names the reporting server; the invariant is kept |
| LocationCache.RegionLocationCache.constructor | hbase-client/src/main/java/org/apache/hadoop/hbase/client/HConnectionManager.java:475-488 | an empty cache with no servers and prefetch enabled everywhere satisfies the invariant |
| LocationCache.RegionLocationCache.CacheLocation | hbase-client/src/main/java/org/apache/hadoop/hbase/client/HConnectionManager.java:1159-1189 | the fields become Put of the old state; the invariant is kept |
| LocationCache.RegionLocationCache.ClearCaches | hbase-client/src/main/java/org/apache/hadoop/hbase/client/HConnectionManager.java:1095-1115 | the nested loop removing entries while iterating computes ClearServer of the old state |
| LocationCache.RegionLocationCache.ForceDeleteCachedLocation | hbase-client/src/main/java/org/apache/hadoop/hbase/client/HConnectionManager.java:1071-1089 | the fields become ForceDelete of the old state |
| LocationCache.RegionLocationCache.DeleteCachedLocation | hbase-client/src/main/java/org/apache/hadoop/hbase/client/HConnectionManager.java:2015-2030 | the fields become DeleteLocation of the old state |
| LocationCache.RegionLocationCache.DeleteCachedRegionLocation | hbase-client/src/main/java/org/apache/hadoop/hbase/client/HConnectionManager.java:2033-2052 | the fields become DeleteRegion of the old state |
| LocationCache.RegionLocationCache.ClearRegionCache | hbase-client/src/main/java/org/apache/hadoop/hbase/client/HConnectionManager.java:1139-1144 | every table and every server is forgotten; prefetch settings stay |
| LocationCache.RegionLocationCache.ClearRegionCacheOfTable | hbase-client/src/main/java/org/apache/hadoop/hbase/client/HConnectionManager.java:1147-1151 | exactly that table is forgotten; the server set stays, and the invariant still holds |
| LocationCache.RegionLocationCache.UpdateCachedLocation | hbase-client/src/main/java/org/apache/hadoop/hbase/client/HConnectionManager.java:2002-2008 | caches the redirect as Put with the given source |
| LocationCache.RegionLocationCache.UpdateCachedLocations | hbase-client/src/main/java/org/apache/hadoop/hbase/client/HConnectionManager.java:2061-2093 | the fields become UpdateLocations of the old state |
| LocationCache.RegionLocationCache.SetRegionCachePrefetch | hbase-client/src/main/java/org/apache/hadoop/hbase/client/HConnectionManager.java:2518-2531 | afterwards getRegionCachePrefetch answers `enable` for the table and what it answered before for every other table; the cache is unchanged |
| Resolver.ValidateMetaRow | hbase-client/src/main/java/org/apache/hadoop/hbase/client/HConnectionManager.java:933-980 | each outcome iff its condition, in the code's order: TableNotFound for no row or another table's region, an empty descriptor, RegionOffline for a split parent or offline region, NoServerForRegion, RegionServerStopped for a dead server, else the row's location |
| Resolver.Prefetch | hbase-client/src/main/java/org/apache/hadoop/hbase/client/HConnectionManager.java:823-854 | the visitor never caches an offline region, never touches another table, only adds servers named by rows it cached, and keeps the invariant |
| Resolver.PrefetchRegionCache | hbase-client/src/main/java/org/apache/hadoop/hbase/client/HConnectionManager.java:819-862 | the visitor loop on the cache in place computes Prefetch |
| Resolver.LocateFrom | hbase-client/src/main/java/org/apache/hadoop/hbase/client/HConnectionManager.java:887-1015 | the loop from attempt `tries`: keeps the cache invariant and never makes more than localNumRetries attempts |
| Resolver.AttemptKeepsConsistency | hbase-client/src/main/java/org/apache/hadoop/hbase/client/HConnectionManager.java:893-980 | one attempt keeps the cache invariant |
| Resolver.AttemptsBounded | hbase-client/src/main/java/org/apache/hadoop/hbase/client/HConnectionManager.java:881-891 | at most localNumRetries attempts, and at most one when retry is off |
| Resolver.LocatedIsCached | hbase-client/src/main/java/org/apache/hadoop/hbase/client/HConnectionManager.java:905-980 | a location the loop returns belongs to the table asked for and is cached at its start key, or a newer location of that region is |
| Resolver.LocateResultIsCached | hbase-client/src/main/java/org/apache/hadoop/hbase/client/HConnectionManager.java:872-980 | the same for the whole call, including the first cache hit |
| Resolver.UncachedResultIsValidated | hbase-client/src/main/java/org/apache/hadoop/hbase/client/HConnectionManager.java:923-980 | without the cache, a returned location is the validated answer of one of the attempts made: a region of the table, not split, not offline, on a server not known dead |
| Resolver.TableNotFoundIsNotRetried | hbase-client/src/main/java/org/apache/hadoop/hbase/client/HConnectionManager.java:981-985 | TableNotFound comes from the last attempt made, and that attempt reported it |
| Resolver.UnlocatedCatalogExhausts | hbase-client/src/main/java/org/apache/hadoop/hbase/client/HConnectionManager.java:887-898 | when the catalog region is never located, all attempts are spent and NoServerForRegion is thrown with the cache untouched |
| Resolver.PersistentFailureRaisesLastError | hbase-client/src/main/java/org/apache/hadoop/hbase/client/HConnectionManager.java:986-1001 | with retries on, a catalog that stays unreachable costs all numTries attempts and the last caught error is thrown |
| Resolver.NoRetryReplacesError | hbase-client/src/main/java/org/apache/hadoop/hbase/client/HConnectionManager.java:986-1001 | with retry off and numTries of two or more, a caught error is replaced by NoServerForRegion after the one attempt |
| Resolver.LocateRegion | hbase-client/src/main/java/org/apache/hadoop/hbase/client/HConnectionManager.java:796-812 | a closed connection and an empty table name are refused; the catalog table's location comes from the registry; any other table goes through locateRegionInMeta, whose result and cache it returns |
| Resolver.LocateRegionInMeta | hbase-client/src/main/java/org/apache/hadoop/hbase/client/HConnectionManager.java:868-1016 | the loop on the cache in place returns the result, the cache and the attempt count of Locate |
| Resolver.TryOnce | hbase-client/src/main/java/org/apache/hadoop/hbase/client/HConnectionManager.java:893-980 | one pass of the loop body on the cache in place is AttemptStep |
| ErrorTracker.Report | hbase-client/src/main/java/org/apache/hadoop/hbase/client/HConnectionManager.java:2754-2761 | a first error opens a record with zero retries, a later one adds a retry; the error time is now; other servers untouched |
| ErrorTracker.ReportsCountRetries | hbase-client/src/main/java/org/apache/hadoop/hbase/client/HConnectionManager.java:2766-2783 | after k reports of a server new to the tracker it counts k - 1 retries and the time of the last report |
| ErrorTracker.Backoff | hbase-client/src/main/java/org/apache/hadoop/hbase/client/HConnectionManager.java:2730-2747 | zero for an unknown server, never negative, at most the scheduled pause, and when positive `now + result <= canRetryUntil`; the next attempt is at the earlier of the pause's end and the deadline, never in the past |
| ErrorTracker.SumPausesCoversEach | hbase-client/src/main/java/org/apache/hadoop/hbase/client/HConnectionManager.java:526-538 | the tracker's time budget covers each scheduled pause and grows with the number of tries |
| ErrorTracker.ServerTrackerTimeout | hbase-client/src/main/java/org/apache/hadoop/hbase/client/HConnectionManager.java:526-539 | the constructor's loop computes the sum of the first numTries pauses with the tracker in use, else zero |
| ErrorTracker.ServerErrorTracker.constructor | hbase-client/src/main/java/org/apache/hadoop/hbase/client/HConnectionManager.java:2714-2717 | the deadline is now plus the timeout and no server has a record |
| ErrorTracker.ServerErrorTracker.ReportServerError | hbase-client/src/main/java/org/apache/hadoop/hbase/client/HConnectionManager.java:2754-2761 | the records become Report of the old records |
| ErrorTracker.ServerErrorTracker.CalculateBackoffTime | hbase-client/src/main/java/org/apache/hadoop/hbase/client/HConnectionManager.java:2730-2747 | the result is Backoff |
| BatchProcess.NonNull | hbase-client/src/main/java/org/apache/hadoop/hbase/client/HConnectionManager.java:2188-2191 | the actions submit sends are exactly the given actions whose row is not null |
| BatchProcess.SentActions | hbase-client/src/main/java/org/apache/hadoop/hbase/client/HConnectionManager.java:2274-2281 | the first submit sends every action with a row, each exactly once |
| BatchProcess.GroupStep | hbase-client/src/main/java/org/apache/hadoop/hbase/client/HConnectionManager.java:2197-2203 | adding one more located action to its server's group, or to a new group, keeps the grouping |
| BatchProcess.GroupByServer | hbase-client/src/main/java/org/apache/hadoop/hbase/client/HConnectionManager.java:2185-2205 | succeeds iff every row was located; then one non-empty task per server, each action in the task of the server it was found on, together exactly the actions with a row |
| BatchProcess.FateOf | hbase-client/src/main/java/org/apache/hadoop/hbase/client/HConnectionManager.java:2309-2350 | success iff the request answered and the result is a success; retry iff retries go on and the request failed whole or the failure is not DoNotRetry; error otherwise |
| BatchProcess.FatesPartition | hbase-client/src/main/java/org/apache/hadoop/hbase/client/HConnectionManager.java:2309-2357 | the actions of a completed request split exactly into successes, errors and retries |
| BatchProcess.NoRetryNoReplay | hbase-client/src/main/java/org/apache/hadoop/hbase/client/HConnectionManager.java:2342-2349 | once noRetry is set no action is queued for replay |
| BatchProcess.ErrorsOfIndices | hbase-client/src/main/java/org/apache/hadoop/hbase/client/HConnectionManager.java:2316-2343 | the errors a request adds are exactly its actions whose fate is error, each with the request's location and the action's own failure |
| BatchProcess.CacheStep | hbase-client/src/main/java/org/apache/hadoop/hbase/client/HConnectionManager.java:2339-2341 | each failed action makes the cache react to its failure, and the cache invariant is kept |
| BatchProcess.CacheAfter | hbase-client/src/main/java/org/apache/hadoop/hbase/client/HConnectionManager.java:2309-2341 | the cache updates of a whole completed request keep the cache invariant and leave the maps of all other tables as they were |
| BatchProcess.CacheAfterTasks | hbase-client/src/main/java/org/apache/hadoop/hbase/client/HConnectionManager.java:2296-2343 | the cache updates of every request completed in a batch, in completion order, keep the cache invariant and leave the maps of all other tables as they were |
| BatchProcess.CacheAfterTasksSnoc | hbase-client/src/main/java/org/apache/hadoop/hbase/client/HConnectionManager.java:2296-2343 | one more completed request adds its own updates on top of the earlier ones |
| BatchProcess.TrackReplay | hbase-client/src/main/java/org/apache/hadoop/hbase/client/HConnectionManager.java:2420-2425 | the tracker is created at the first retry with deadline now plus the timeout, which later retries keep; it answers last retry iff the clock reached the deadline |
| BatchProcess.ReplayedEffect | hbase-client/src/main/java/org/apache/hadoop/hbase/client/HConnectionManager.java:2414-2431 | addToReplay queues the action, adds one to its count, keeps curNumRetries the maximum; without tracker it answers `curNumRetries + 1 >= numTries`, with one `!canRetryMore()` after reporting the server |
| BatchProcess.ReplayAllCounts | hbase-client/src/main/java/org/apache/hadoop/hbase/client/HConnectionManager.java:2415-2419 | over a run of retries each count grows by its number of retries and curNumRetries never decreases, bounds every retried count and is the old maximum or one of the counts |
| BatchProcess.ReplayAllTracker | hbase-client/src/main/java/org/apache/hadoop/hbase/client/HConnectionManager.java:2420-2431 | over a run of retries the last answer is the count test without tracker and the deadline test with one; a tracker keeps its deadline |
| BatchProcess.ActionStep | hbase-client/src/main/java/org/apache/hadoop/hbase/client/HConnectionManager.java:2333-2354 | one action's analysis keeps the sizes of the books |
| BatchProcess.TaskSteps | hbase-client/src/main/java/org/apache/hadoop/hbase/client/HConnectionManager.java:2331-2356 | the analysis of a request keeps the sizes of the books |
| BatchProcess.TaskReplays | hbase-client/src/main/java/org/apache/hadoop/hbase/client/HConnectionManager.java:2309-2357 | a completed request queues exactly its actions whose fate is retry, in order |
| BatchProcess.TaskCallbacks | hbase-client/src/main/java/org/apache/hadoop/hbase/client/HConnectionManager.java:2350-2354 | with a callback, exactly the successes are passed to it, in order; without one nothing is |
| BatchProcess.TaskErrors | hbase-client/src/main/java/org/apache/hadoop/hbase/client/HConnectionManager.java:2316-2343 | a completed request records exactly the errors of its actions whose fate is error |
| BatchProcess.TaskResults | hbase-client/src/main/java/org/apache/hadoop/hbase/client/HConnectionManager.java:2336 | each answered action's cell holds its answer unless the request failed whole; every other cell is kept |
| BatchProcess.TaskRetryState | hbase-client/src/main/java/org/apache/hadoop/hbase/client/HConnectionManager.java:2322-2348 | what a request does to the retry state is addToReplay for each retried action in order |
| BatchProcess.ReplayBudget | hbase-client/src/main/java/org/apache/hadoop/hbase/client/HConnectionManager.java:2414-2431 | a run of retries keeps the retry budget, and the last retry ends the retries |
| BatchProcess.ReplayRankCounted | hbase-client/src/main/java/org/apache/hadoop/hbase/client/HConnectionManager.java:2427-2430 | without tracker, a run of retries that is not the last leaves fewer tries |
| BatchProcess.ReplayRankTimed | hbase-client/src/main/java/org/apache/hadoop/hbase/client/HConnectionManager.java:2420-2425 | with a tracker, a run of retries that is not the last leaves less time before the deadline |
| BatchProcess.BudgetBounds | hbase-client/src/main/java/org/apache/hadoop/hbase/client/HConnectionManager.java:2427-2430 | the budget bounds every count: never negative and, without tracker, at most numTries - 1 |
| BatchProcess.Started | hbase-client/src/main/java/org/apache/hadoop/hbase/client/HConnectionManager.java:2280-2289 | after the first submit the main loop's invariant holds with no errors, no successes and `noRetry == numTries < 2` |
| BatchProcess.Closing | hbase-client/src/main/java/org/apache/hadoop/hbase/client/HConnectionManager.java:2292-2373 | with nothing in flight, each action with a row is a success or an error exactly once, the cells agree, the callback saw exactly the successes, and without errors every row succeeded |
| BatchProcess.RetryReady | hbase-client/src/main/java/org/apache/hadoop/hbase/client/HConnectionManager.java:2359-2366 | before a retry the actions to replay have rows, and the tracker exists or the retry count is at least one, as submit needs |
| BatchProcess.PassKeeps | hbase-client/src/main/java/org/apache/hadoop/hbase/client/HConnectionManager.java:2292-2370 | one pass on values keeps every action accounted for and the retry budget, and decreases the loop's measure |
| BatchProcess.PassStep | hbase-client/src/main/java/org/apache/hadoop/hbase/client/HConnectionManager.java:2292-2370 | a pass either keeps the loop invariant and decreases the measure, or (a retried row not located) keeps the budget and the cells of null rows |
| BatchProcess.OverGrows | hbase-client/src/main/java/org/apache/hadoop/hbase/client/HConnectionManager.java:2414-2431 | once retries are over (numTries below 2, an action at its last try, or a clock reading past the tracker's deadline) they stay over as counts and readings grow |
| BatchProcess.JustifiedGrows | hbase-client/src/main/java/org/apache/hadoop/hbase/client/HConnectionManager.java:2292-2370 | errors justified earlier stay justified as more requests complete and retries are counted |
| BatchProcess.ErrorsOfAnswered | hbase-client/src/main/java/org/apache/hadoop/hbase/client/HConnectionManager.java:2313-2343 | each error a completed request adds reports that request's answer (the whole request failed, or the action failed with that failure) and is a DoNotRetryIOException unless noRetry was set |
| BatchProcess.ReplayAllOver | hbase-client/src/main/java/org/apache/hadoop/hbase/client/HConnectionManager.java:2414-2431 | over a run of addToReplay calls counts and readings only grow, the deadline stays, and a last retry means retries are over |
| BatchProcess.PassJustified | hbase-client/src/main/java/org/apache/hadoop/hbase/client/HConnectionManager.java:2289-2370 | a pass keeps Justified: noRetry is set only once retries are over, and every error recorded reports an answer and was recorded for a DoNotRetryIOException or with retries over |
| BatchProcess.PassOutcome | hbase-client/src/main/java/org/apache/hadoop/hbase/client/HConnectionManager.java:2292-2370 | what a pass keeps, on values, whichever way its submit went, including Justified and a submit that missed a row |
| BatchProcess.Process.constructor | hbase-client/src/main/java/org/apache/hadoop/hbase/client/HConnectionManager.java:2160-2173 | nothing to replay, nothing in flight, no tracker, curNumRetries 0 |
| BatchProcess.Process.Submit | hbase-client/src/main/java/org/apache/hadoop/hbase/client/HConnectionManager.java:2184-2235 | queues something iff every row is located; then the new tasks follow the old ones and are grouped per server; with a tracker, the pause of each task takes one clock reading |
| BatchProcess.Process.Send | hbase-client/src/main/java/org/apache/hadoop/hbase/client/HConnectionManager.java:2207-2234 | one task per group is appended, with the pause RetryPause gives |
| BatchProcess.Process.AddToReplay | hbase-client/src/main/java/org/apache/hadoop/hbase/client/HConnectionManager.java:2414-2432 | the retry state and the answer are Replayed of the old state |
| BatchProcess.Process.Track | hbase-client/src/main/java/org/apache/hadoop/hbase/client/HConnectionManager.java:2420-2426 | the tracker part is TrackReplay, creating the tracker on first use |
| BatchProcess.Process.AnalyseAction | hbase-client/src/main/java/org/apache/hadoop/hbase/client/HConnectionManager.java:2309-2354 | the analysis of one action in place is ActionStep, and the cache becomes CacheStep |
| BatchProcess.Process.WholeRequestFailed | hbase-client/src/main/java/org/apache/hadoop/hbase/client/HConnectionManager.java:2309-2325 | the same for an action of a request that failed whole |
| BatchProcess.Process.ActionAnswered | hbase-client/src/main/java/org/apache/hadoop/hbase/client/HConnectionManager.java:2331-2355 | the same for an action with an answer of its own |
| BatchProcess.Process.AnalyseTask | hbase-client/src/main/java/org/apache/hadoop/hbase/client/HConnectionManager.java:2309-2357 | the loop over a request's actions computes TaskSteps, and the cache becomes CacheAfter |
| BatchProcess.Process.Complete | hbase-client/src/main/java/org/apache/hadoop/hbase/client/HConnectionManager.java:2296-2357 | the request completing next leaves the requests in flight and its answers are analysed as Analysed says; the cache changes by that request's updates (CacheAfter) and its prefetch settings are kept |
| BatchProcess.Process.DoRetry | hbase-client/src/main/java/org/apache/hadoop/hbase/client/HConnectionManager.java:2241-2244 | the replay list is submitted again and cleared when every row was located |
| BatchProcess.Process.Retry | hbase-client/src/main/java/org/apache/hadoop/hbase/client/HConnectionManager.java:2359-2370 | retries are submitted only while noRetry is off and something waits, and a last retry latches noRetry |
| BatchProcess.Process.Round | hbase-client/src/main/java/org/apache/hadoop/hbase/client/HConnectionManager.java:2292-2370 | one pass of the main loop in place is PassRel; the request that completed is appended to the completed ones and the cache follows (CacheFollows); prefetch settings are kept |
| BatchProcess.Process.Pass | hbase-client/src/main/java/org/apache/hadoop/hbase/client/HConnectionManager.java:2292-2370 | one pass keeps the loop invariant and the justification of errors (Justified) and decreases the measure, or ends with a row not located; the cache follows the completed requests; prefetch settings are kept |
| BatchProcess.Process.Passes | hbase-client/src/main/java/org/apache/hadoop/hbase/client/HConnectionManager.java:2292-2370 | the passes of the main loop run until nothing is in flight (with the loop invariant and Justified) or a retried row is not located; the cache is the start cache updated by the requests completed, in completion order; prefetch settings are kept |
| BatchProcess.Process.Drain | hbase-client/src/main/java/org/apache/hadoop/hbase/client/HConnectionManager.java:2292-2373 | the main loop terminates, and ends as Done with the batch finished and no error, as RetriesExhausted with its non-empty errors, each justified (ErrorsJustified), or as NoLocation only when the last submit met a row it could not locate, which never happens when every row is always located; the cache is the start cache updated by the requests completed, in completion order |
| BatchProcess.Process.ProcessBatchCallback | hbase-client/src/main/java/org/apache/hadoop/hbase/client/HConnectionManager.java:2252-2374 | refused iff results and rows differ in length; an empty batch returns at once; a normal end or RetriesExhausted leaves every action accounted for; null rows keep their cells; NoLocation comes only from a submit that met a row it could not locate, so it never happens when every row is always located; without tracker every action was retried at most numTries - 1 times; every error of RetriesExhausted reports a completed request's answer and was recorded for a DoNotRetryIOException or with retries over; the cache changes only by the updates of the completed requests, in completion order, so other tables keep their maps, and prefetch settings are kept |
| BatchProcess.Process.Run | hbase-client/src/main/java/org/apache/hadoop/hbase/client/HConnectionManager.java:2262-2374 | the same past the argument checks, including both directions of the NoLocation outcome, the justification of errors and the cache's updates |
| KeepAlive.WrapLong | hbase-client/src/main/java/org/apache/hadoop/hbase/client/HConnectionManager.java:1949 | Java `long` addition: the result is a long, equals the sum when the sum is one, and differs from it by a multiple of 2^64 |
| KeepAlive.StepsKeepHealthy | hbase-client/src/main/java/org/apache/hadoop/hbase/client/HConnectionManager.java:1564-1573 | acquire, release, immediate close and the chore's sweep keep "held implies deadline Long.MAX_VALUE" |
| KeepAlive.HeldNotSwept | hbase-client/src/main/java/org/apache/hadoop/hbase/client/HConnectionManager.java:1607-1612 | the chore never closes a resource that somebody holds |
| KeepAlive.IdleWindow | hbase-client/src/main/java/org/apache/hadoop/hbase/client/HConnectionManager.java:1607-1612 | after the last release at `now`, a chore at t closes the resource iff t > now + keepAlive, and then leaves it closed, unused, with deadline Long.MAX_VALUE |
| KeepAlive.AcquireCancelsClose | hbase-client/src/main/java/org/apache/hadoop/hbase/client/HConnectionManager.java:1547-1561 | taking the resource again before the chore runs cancels the pending close |
| KeepAlive.SweepIdempotent | hbase-client/src/main/java/org/apache/hadoop/hbase/client/HConnectionManager.java:1607-1612 | a second chore at the same instant changes nothing more |
| StubPool.ServiceName | hbase-client/src/main/java/org/apache/hadoop/hbase/client/HConnectionManager.java:1493-1494 | a service interface name contains no '@' |
| StubPool.StubKeyInjective | hbase-client/src/main/java/org/apache/hadoop/hbase/client/HConnectionManager.java:1532-1534 | distinct (service, host:port) pairs give distinct keys when the service name has no '@' |
| StubPool.ServicesApart | hbase-client/src/main/java/org/apache/hadoop/hbase/client/HConnectionManager.java:1493-1515 | a client stub and an admin stub never share a key |
| StubPool.ObtainKeyed | hbase-client/src/main/java/org/apache/hadoop/hbase/client/HConnectionManager.java:1497-1506 | get-or-create returns a stub of the requested service and address, pooled under its key; the pool only grows by that key and keeps every other stub |
| StubPool.ObtainOnce | hbase-client/src/main/java/org/apache/hadoop/hbase/client/HConnectionManager.java:1517-1529 | a second request for the same service and address returns the first stub and leaves the pool as it was |
| Lifecycle.ZooKeeperStepValid | hbase-client/src/main/java/org/apache/hadoop/hbase/client/HConnectionManager.java:1547-1574 | the watcher's get, release and close keep the connection invariant |
| Lifecycle.MasterStepValid | hbase-client/src/main/java/org/apache/hadoop/hbase/client/HConnectionManager.java:1944-1960 | the master services' get, release and close keep the invariant |
| Lifecycle.ApplyValid | hbase-client/src/main/java/org/apache/hadoop/hbase/client/HConnectionManager.java:2575-2609 | every single lifecycle operation keeps the invariant: count not negative, held resources never due, stubs under their own keys |
| Lifecycle.ReplayValid | hbase-client/src/main/java/org/apache/hadoop/hbase/client/HConnectionManager.java:2575-2609 | any sequence of operations keeps the invariant |
| Lifecycle.HeldNeverSwept | hbase-client/src/main/java/org/apache/hadoop/hbase/client/HConnectionManager.java:1615-1627 | whatever a connection went through, its count is not negative and the chore leaves every held resource alone |
| Lifecycle.StubMatchesRequest | hbase-client/src/main/java/org/apache/hadoop/hbase/client/HConnectionManager.java:1509-1530 | whatever a connection went through, a stub it hands out speaks the requested service to the requested address |
| Lifecycle.DeadServerRefused | hbase-client/src/main/java/org/apache/hadoop/hbase/client/HConnectionManager.java:1512-1514 | a dead server gets RegionServerStopped and the pool is left alone |
| Lifecycle.CountBalance | hbase-client/src/main/java/org/apache/hadoop/hbase/client/HConnectionManager.java:2575-2595 | incCount then decCount is the identity, decCount never goes below zero, and one release from a count of at most one reaches zero |
| Lifecycle.CloseIdempotent | hbase-client/src/main/java/org/apache/hadoop/hbase/client/HConnectionManager.java:2597-2600 | internalClose twice is internalClose once |
| Lifecycle.CloseReleases | hbase-client/src/main/java/org/apache/hadoop/hbase/client/HConnectionManager.java:2597-2609 | closing an open connection stops the chore, drops the masters, the watcher and every stub, keeps the count, and afterwards neither a watcher nor a master service can be had |
| Connections.MasterServiceState.constructor | hbase-client/src/main/java/org/apache/hadoop/hbase/client/HConnectionManager.java:1216-1224 | no stub, no users, deadline Long.MAX_VALUE |
| Connections.Connection.constructor | hbase-client/src/main/java/org/apache/hadoop/hbase/client/HConnectionManager.java:511-514 | an open, unreferenced connection holding nothing, with two separate master states |
| Connections.Connection.IncCount | hbase-client/src/main/java/org/apache/hadoop/hbase/client/HConnectionManager.java:2575-2577 | the state becomes Lifecycle.IncCount of the old one |
| Connections.Connection.DecCount | hbase-client/src/main/java/org/apache/hadoop/hbase/client/HConnectionManager.java:2582-2586 | the state becomes Lifecycle.DecCount of the old one |
| Connections.Connection.IsZeroReference | hbase-client/src/main/java/org/apache/hadoop/hbase/client/HConnectionManager.java:2593-2595 | true iff the reference count is zero |
| Connections.Connection.GetKeepAliveZooKeeperWatcher | hbase-client/src/main/java/org/apache/hadoop/hbase/client/HConnectionManager.java:1547-1562 | refused, with nothing changed, iff no watcher exists and the connection is closed; else the watcher is acquired |
| Connections.Connection.ReleaseZooKeeperWatcher | hbase-client/src/main/java/org/apache/hadoop/hbase/client/HConnectionManager.java:1564-1574 | the state becomes ReleaseZooKeeper of the old one |
| Connections.Connection.CloseZooKeeperWatcher | hbase-client/src/main/java/org/apache/hadoop/hbase/client/HConnectionManager.java:1641-1652 | the watcher is dropped and its users reset |
| Connections.Connection.ResetMasterServiceState | hbase-client/src/main/java/org/apache/hadoop/hbase/client/HConnectionManager.java:1669-1672 | one more user and deadline Long.MAX_VALUE |
| Connections.Connection.GetKeepAliveMasterService | hbase-client/src/main/java/org/apache/hadoop/hbase/client/HConnectionManager.java:1675-1683 | refused with MasterNotRunning, nothing changed, iff the stub is missing or not running and the connection is closed or no new one can be made; else the master is acquired |
| Connections.Connection.ReleaseMaster | hbase-client/src/main/java/org/apache/hadoop/hbase/client/HConnectionManager.java:1944-1952 | the state becomes Lifecycle.ReleaseMaster of the old one |
| Connections.Connection.CloseMasterService | hbase-client/src/main/java/org/apache/hadoop/hbase/client/HConnectionManager.java:1954-1960 | the service state is expired |
| Connections.Connection.CloseMaster | hbase-client/src/main/java/org/apache/hadoop/hbase/client/HConnectionManager.java:1966-1971 | both master services are closed |
| Connections.Connection.CloseMasterProtocol | hbase-client/src/main/java/org/apache/hadoop/hbase/client/HConnectionManager.java:1607-1612 | the service state is swept at `now` |
| Connections.Connection.Chore | hbase-client/src/main/java/org/apache/hadoop/hbase/client/HConnectionManager.java:1615-1628 | the state becomes Lifecycle.Chore of the old one |
| Connections.Connection.InternalClose | hbase-client/src/main/java/org/apache/hadoop/hbase/client/HConnectionManager.java:2597-2609 | the state becomes Lifecycle.InternalClose of the old one |
| Connections.Connection.GetStub | hbase-client/src/main/java/org/apache/hadoop/hbase/client/HConnectionManager.java:1509-1530 | refused iff the server is dead; else the stub and the pool are Lifecycle.GetStub |
| Connections.Connection.GetClient | hbase-client/src/main/java/org/apache/hadoop/hbase/client/HConnectionManager.java:1510-1530 | the same for the client service |
| Connections.Connection.GetAdmin | hbase-client/src/main/java/org/apache/hadoop/hbase/client/HConnectionManager.java:1487-1507 | the same for the admin service |
| ConnectionRegistry.Registry.constructor | hbase-client/src/main/java/org/apache/hadoop/hbase/client/HConnectionManager.java:215-226 | an empty registry satisfies its invariant |
| ConnectionRegistry.Registry.GetConnection | hbase-client/src/main/java/org/apache/hadoop/hbase/client/HConnectionManager.java:253-269 | afterwards the key holds an open managed connection: the registered one with one more reference if it was open, else a new one with one reference, the closed one released as stale; other keys unchanged |
| ConnectionRegistry.Registry.Register | hbase-client/src/main/java/org/apache/hadoop/hbase/client/HConnectionManager.java:258-260 | a new managed connection with one reference goes under the key |
| ConnectionRegistry.Registry.Replace | hbase-client/src/main/java/org/apache/hadoop/hbase/client/HConnectionManager.java:261-264 | the closed connection is released as stale and a new one takes its key |
| ConnectionRegistry.Registry.Reuse | hbase-client/src/main/java/org/apache/hadoop/hbase/client/HConnectionManager.java:266-267 | the registered connection takes one more reference |
| ConnectionRegistry.Registry.DeleteConnection | hbase-client/src/main/java/org/apache/hadoop/hbase/client/HConnectionManager.java:352-366 | an unknown key changes nothing; else the count goes down, and the entry is removed and the connection closed iff the count reached zero or it is stale |
| ConnectionRegistry.Registry.Release | hbase-client/src/main/java/org/apache/hadoop/hbase/client/HConnectionManager.java:355-360 | the registered branch of the above |
| ConnectionRegistry.Registry.DeleteConnectionOf | hbase-client/src/main/java/org/apache/hadoop/hbase/client/HConnectionManager.java:341-350 | the entry found by identity is released as by DeleteConnection; an unregistered connection is left alone |
| ConnectionRegistry.Registry.DeleteAllConnections | hbase-client/src/main/java/org/apache/hadoop/hbase/client/HConnectionManager.java:330-339 | every registered connection is released once, those reaching zero are closed, and the registry ends empty |
| ConnectionRegistry.Registry.Close | hbase-client/src/main/java/org/apache/hadoop/hbase/client/HConnectionManager.java:2612-2622 | a managed connection is released through the registry, as stale when aborted; an unmanaged one is closed directly |
| ConnectionRegistry.Registry.Abort | hbase-client/src/main/java/org/apache/hadoop/hbase/client/HConnectionManager.java:2534-2555 | a lost ZooKeeper session with a watcher only drops the watcher; otherwise the connection ends in state Aborted: aborted, closed and out of the registry; only its own entry leaves the registry and every other entry stays |
| ConnectionRegistry.Registry.Finalize | hbase-client/src/main/java/org/apache/hadoop/hbase/client/HConnectionManager.java:2636-2641 | the last reference is released: the connection ends in state Finalized; a managed connection leaves the registry, a registered or unmanaged one ends closed, and every other entry stays |
| ConnectionRegistry.AbortReleases | hbase-client/src/main/java/org/apache/hadoop/hbase/client/HConnectionManager.java:2534-2555 | an aborted connection ends aborted and closed; an open one that is unmanaged or registered has stopped its chore and released its watcher, masters and stubs; a registered one gives up one reference; an unregistered managed one is only marked |
| ConnectionRegistry.FinalizeReleases | hbase-client/src/main/java/org/apache/hadoop/hbase/client/HConnectionManager.java:2636-2641 | finalizing an unmanaged or registered connection closes it and releases what an open one held; a registered one ends with no reference whatever its count was, an unmanaged one with one |

## Left out

- RPC, protobuf and ZooKeeper are not modelled. This covers stub construction, `getRowOrBefore`, the catalog scan, the meta registry and `isMasterRunning`. Each is a parameter of the operation that uses it.
- Threads, the executor pool, futures, `removeFirstDone`'s waiting, the delayed callable's sleep and every `synchronized` block are not modelled. The model is single-threaded, and the `pick` oracle chooses the completion order.
- The per-key `connectionLock` striping and `masterAndZKLock` are left out, because locks have no effect in a single-threaded model.
- `Thread.sleep` between resolver attempts, and its interruption, are left out, because they are timing only.
- The relocation of the catalog region after a caught error (`relocateRegion(parentTable, metaKey)`) is left out. It is a nested lookup of the catalog table, whose answer is already that attempt's oracle.
- `SoftValueSortedMap`'s soft references are an ordinary map, because garbage-collector eviction cannot be modelled.
- Tables are keyed by name, not by the `Bytes.mapKey` hash. Two tables whose hashes collide would share a map in the source; they do not here. The same holds for `regionCachePrefetchDisabledTables`, which also holds `Bytes.mapKey` hashes (lines 487 and 2521-2530): in the source, colliding tables would also share one prefetch flag, and here each has its own.
- `getTableLocations` creates an empty map for a table it has not seen. The model treats a missing table as an empty one, so that side effect is not visible.
- `HRegionLocation.equals` is taken as equality of the server name. `HRegionLocation` is not part of this model.
- `HConnectionKey` is a map of configuration properties compared by value. Its hashing is not part of this model.
- The LRU eviction of `CONNECTION_INSTANCES` beyond `MAX_CACHED_CONNECTION_INSTANCES` is left out, because it depends on configuration read through `HBaseConfiguration`.
- The registry is a map whose iteration order in `deleteAllConnections` is free. The result does not depend on the order.
- `createConnection` with reflection, `setupRegistry`, `retrieveClusterId` and the cluster status listener are left out. `isDeadServer` is the `dead` parameter, or the set `dead` of a resolver request.
- `Lifecycle.GetMaster` and `Connections.Connection.GetKeepAliveMasterService`: making a new master stub (`makeStubNoRetries`) opens the ZooKeeper watcher and hands it back at the end of each try, which arms the watcher's keep-alive deadline. It also pools the master stub in `stubs` under its service and the master's `host:port`. Neither effect is modelled; the master's lease is the only state that changes. The stub maker's retry loop and its pauses are summed up in the `made` parameter.
- The forwarding master wrappers returned by `getKeepAliveMasterAdminService` and `getKeepAliveMasterMonitorService` are left out; they only forward to the stub. Their `close` is `ReleaseMaster`.
- `ConnectionUtils.getPauseTime` is an uninterpreted function `pauseTime`, because its source is not part of this model.
- Logging, trace output and `retriedErrors` are left out, because they do not change state.
- Other `locateRegion` overloads, `locateRegions`, `relocateRegion`'s disabled-table check, `isTableAvailable` and `processBatch` are left out. They are thin wrappers or scans of the catalog.
- The prefetch scan's row limit (`prefetchRegionLimit`) and its failure are left out. The `scan` of a catalog attempt is whatever rows the scan delivered (which may be none).
- `updateCachedLocations` guards against a null row or table; this is not modelled, because a batch action in the model always has its row when it is analysed.
- `BatchProcess.Process.Submit` and its location oracle stand for `locateRegion` from inside the batch. A failure to locate (null or an exception) is the single outcome `NoLocation`, because the source propagates both out of `processBatchCallback` unchanged.
- The answers of a request are assumed to cover exactly the actions of its task. The source walks whatever results the server returned.
- `BatchProcess.Process.AnalyseTask`: it analyses a request's answers in the order of the task's actions. The source walks the response's results per region, and, for a request that failed whole, the actions per region. So the order of `callbackLog`, of `errors` and of `toReplay`, which `TaskCallbacks` and `TaskReplays` state, is the model's order and not necessarily the source's. The sets are the same.
- `BatchProcess.Process.Submit`: the `locate` oracle neither reads nor fills `Process.cache`. In the source, `locateRegion` answers from the location cache and caches what it finds in the catalog. So the model does not capture that the cache updates made on a failure (`CacheStep`, `CacheAfter`) decide where a retry is sent. With a tracker, the model takes one clock reading for each task's pause. The source's `calculateBackoffTime` reads the clock only for a server that has an error record. Skipping a reading changes no result, because the model requires a strictly increasing clock there.
- `BatchProcess.Process.ProcessBatchCallback`: requires a strictly increasing clock (`StrictlyIncreasing`) when the tracker is used. With a clock that stands still, the deadline is never reached and `canRetryMore()` stays true. If failures persist, the source's main loop then never ends. The requirement excludes this non-terminating case. It also excludes every clock that repeats a reading, such as two reads of `currentTimeMillis` in the same millisecond. On such a clock the source still terminates, once the clock passes `canRetryUntil`. So with the tracker, the accounting of `ProcessBatchCallback` and its `Finished` result are proved only for this idealised clock.
- `KeepAlive.WrapLong` models Java `long` overflow only where a deadline is computed (`now + keepAlive`). The tracker's deadline and backoff arithmetic, `refCount` and user counts are unbounded integers, because their overflow needs inputs near `Long.MAX_VALUE` or 2^31 references.
- `Connections.Connection.Chore` reads the clock once for the whole chore. The source reads it separately for the watcher and for each master service.
- `StubPool.Obtain` returns the pooled stub even if the server restarted with a new start code on the same host and port. The same holds in the source, so no restart is modelled beyond that.
- `Connections.Connection.InternalClose` does not model closing the cluster status listener, which is plumbing outside this model.
- `createConnection(conf)` (unmanaged) is `new Connection(false)`, with no registration.
