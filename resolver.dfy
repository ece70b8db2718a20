/**
 * Finding the region that holds a row: the cache is consulted first, then
 * the catalog table is asked, with a bounded number of attempts.  Reading
 * the catalog is outside the model; each attempt's answer comes from an
 * oracle, and so does the set of servers the cluster status reports dead.
 */
module Resolver {
  import opened Wrappers
  import opened Bytes
  import opened Locations
  import opened LocationCache

  datatype LocateError =
    | TableNotFound        // TableNotFoundException
    | RegionOffline        // RegionOfflineException: split parent or offline region
    | NoServerForRegion    // NoServerForRegionException
    | RegionServerStopped  // RegionServerStoppedException: the catalog names a dead server
    | EmptyRegionInfo      // IOException: the catalog row carries no region descriptor
    | RemoteFailure        // any other IOException raised while reading the catalog
    | ConnectionClosed     // IOException: the connection is closed
    | IllegalTableName     // IllegalArgumentException: null or empty table name

  /** A row of the catalog table as the resolver decodes it; None stands for a missing column. */
  datatype MetaRow = MetaRow(info: Option<RegionInfo>, server: Option<ServerName>, seqNum: int)

  /** What one attempt at reading the catalog produced. */
  datatype MetaAttempt =
      /** The catalog region could not be located: the attempt ends, with no pause. */
    | MetaNotLocated
      /** Locating the catalog region or reaching its server raised an error. */
    | MetaUnreachable(error: LocateError)
      /**
       * The catalog server was reached: scan holds the rows a prefetch scan
       * would visit (it is cut short where the scan failed) and lookup is the
       * answer of the closest-row-before lookup, None for an empty answer.
       */
    | MetaReached(scan: seq<MetaRow>, lookup: Result<Option<MetaRow>, LocateError>)

  /** The parameters of one locateRegionInMeta call. */
  datatype Request = Request(
    table: TableName,
    row: Bytes,
    useCache: bool,
    retry: bool,
    numTries: int,
    dead: set<ServerName>)

  /** localNumRetries: the number of attempts the loop allows. */
  function LocalNumRetries(q: Request): nat {
    if !q.retry then 1 else if q.numTries < 0 then 0 else q.numTries
  }

  /** The location a catalog row describes, once it passed validation. */
  function RowLocation(row: MetaRow): Location
    requires row.info.Some? && row.server.Some?
  {
    Location(row.info.value, row.server.value, row.seqNum)
  }

  /**
   * Checking the answer of the catalog lookup, in the order the resolver
   * does: an empty answer or a region of another table means the table does
   * not exist; then a missing descriptor, a split parent or offline region,
   * a row without a server and a server known to be dead are each refused.
   */
  function ValidateMetaRow(table: TableName, answer: Option<MetaRow>, dead: set<ServerName>): (r: Result<Location, LocateError>)
    ensures r.Ok? <==>
      answer.Some? && answer.value.info.Some? && answer.value.info.value.table == table
      && !answer.value.info.value.split && !answer.value.info.value.offline
      && answer.value.server.Some? && answer.value.server.value !in dead
    ensures r.Ok? ==> r.value == RowLocation(answer.value)
    ensures r == Err(TableNotFound) <==>
      answer.None? || (answer.value.info.Some? && answer.value.info.value.table != table)
    ensures r == Err(EmptyRegionInfo) <==> answer.Some? && answer.value.info.None?
    ensures r == Err(RegionOffline) <==>
      answer.Some? && answer.value.info.Some? && answer.value.info.value.table == table
      && (answer.value.info.value.split || answer.value.info.value.offline)
    ensures r == Err(NoServerForRegion) <==>
      answer.Some? && answer.value.info.Some? && answer.value.info.value.table == table
      && !answer.value.info.value.split && !answer.value.info.value.offline
      && answer.value.server.None?
    ensures r == Err(RegionServerStopped) <==>
      answer.Some? && answer.value.info.Some? && answer.value.info.value.table == table
      && !answer.value.info.value.split && !answer.value.info.value.offline
      && answer.value.server.Some? && answer.value.server.value in dead
  {
    if answer.None? then Err(TableNotFound)
    else
      var row := answer.value;
      if row.info.None? then Err(EmptyRegionInfo)
      else if row.info.value.table != table then Err(TableNotFound)
      else if row.info.value.split then Err(RegionOffline)
      else if row.info.value.offline then Err(RegionOffline)
      else if row.server.None? then Err(NoServerForRegion)
      else if row.server.value in dead then Err(RegionServerStopped)
      else Ok(RowLocation(row))
  }

  /** The rows the prefetch visitor caches: online regions of the table with a server. */
  predicate Cacheable(row: MetaRow, table: TableName) {
    row.info.Some? && row.info.value.table == table && !row.info.value.offline && row.server.Some?
  }

  /**
   * prefetchRegionCache as a function: the visitor walks the scanned rows,
   * skips rows without descriptor, offline regions and rows without server,
   * stops at the first region of another table and caches the rest as
   * catalog updates.  It never caches an offline region, never touches
   * another table and keeps the cache consistent.
   */
  function Prefetch(s: CacheState, table: TableName, rows: seq<MetaRow>): (r: CacheState)
    ensures Consistent(s) ==> Consistent(r)
    ensures forall t :: t != table ==> TableOf(r.tables, t) == TableOf(s.tables, t)
    ensures forall k :: k in TableOf(r.tables, table) && TableOf(r.tables, table)[k].region.offline ==>
      k in TableOf(s.tables, table) && TableOf(r.tables, table)[k] == TableOf(s.tables, table)[k]
    ensures s.servers <= r.servers
    ensures forall sn :: sn in r.servers && sn !in s.servers ==>
      exists i :: 0 <= i < |rows| && Cacheable(rows[i], table) && rows[i].server.value == sn
    decreases |rows|
  {
    if rows == [] then s
    else
      var row := rows[0];
      if row.info.None? then Prefetch(s, table, rows[1..])
      else if row.info.value.table != table then s
      else if row.info.value.offline || row.server.None? then Prefetch(s, table, rows[1..])
      else
        var r := Prefetch(Put(s, table, None, RowLocation(row)), table, rows[1..]);
        assert forall sn :: sn in r.servers && sn !in s.servers && sn != row.server.value ==>
          exists i :: 1 <= i < |rows| && Cacheable(rows[i], table) && rows[i].server.value == sn
        by {
          forall sn | sn in r.servers && sn !in s.servers && sn != row.server.value
            ensures exists i :: 1 <= i < |rows| && Cacheable(rows[i], table) && rows[i].server.value == sn
          {
            var j :| 0 <= j < |rows[1..]| && Cacheable(rows[1..][j], table) && rows[1..][j].server.value == sn;
            assert rows[j + 1] == rows[1..][j];
          }
        }
        assert Cacheable(rows[0], table);
        r
  }

  /** How one pass of the resolver's loop ends. */
  datatype Step =
      /** The call returns (a location) or throws an error that is never retried. */
    | Return(result: Result<Location, LocateError>)
      /** The catalog region was not located: go round again at once. */
    | Again
      /** An error was caught; the loop retries while attempts remain. */
    | Failed(error: LocateError)

  /** The catch blocks: a missing table is rethrown at once, any other error is caught. */
  function Thrown(e: LocateError): Step {
    if e == TableNotFound then Return(Err(e)) else Failed(e)
  }

  /**
   * One pass of the loop.  With the cache in use it is checked again (and,
   * when prefetching is on, filled from the scan and checked once more);
   * without it the cached entry for the row is dropped first.  Only then is
   * the lookup's answer validated and, when valid, cached as a catalog
   * update and returned.
   */
  function AttemptStep(s: CacheState, q: Request, prefetch: bool, a: MetaAttempt): (Step, CacheState)
  {
    match a
    case MetaNotLocated => (Again, s)
    case MetaUnreachable(e) => (Thrown(e), s)
    case MetaReached(scan, lookup) =>
      var hit := CachedLocation(s.tables, q.table, q.row);
      if q.useCache && hit.Some? then (Return(Ok(hit.value)), s)
      else
        var s1 := if !q.useCache then ForceDelete(s, q.table, q.row)
                  else if prefetch then Prefetch(s, q.table, scan)
                  else s;
        var hit1 := CachedLocation(s1.tables, q.table, q.row);
        if q.useCache && hit1.Some? then (Return(Ok(hit1.value)), s1)
        else if lookup.Err? then (Thrown(lookup.error), s1)
        else
          var v := ValidateMetaRow(q.table, lookup.value, q.dead);
          if v.Err? then (Thrown(v.error), s1)
          else (Return(v), Put(s1, q.table, None, v.value))
  }

  /** What a call produced: its result, the cache after it, and how many attempts it made. */
  datatype Outcome = Outcome(result: Result<Location, LocateError>, state: CacheState, attempts: nat)

  /**
   * The loop from attempt number tries on.  A caught error is retried
   * while tries < numTries - 1 (note: numTries, not localNumRetries), and
   * the loop gives up with NoServerForRegion at the top once tries reaches
   * localNumRetries.
   */
  function LocateFrom(s: CacheState, q: Request, prefetch: bool, meta: nat -> MetaAttempt, tries: nat): (o: Outcome)
    ensures Consistent(s) ==> Consistent(o.state)
    ensures tries <= LocalNumRetries(q) ==> o.attempts <= LocalNumRetries(q)
    ensures tries <= o.attempts
    decreases LocalNumRetries(q) - tries
  {
    if tries >= LocalNumRetries(q) then Outcome(Err(NoServerForRegion), s, tries)
    else
      var (step, s1) := AttemptStep(s, q, prefetch, meta(tries));
      AttemptKeepsConsistency(s, q, prefetch, meta(tries));
      match step
      case Return(r) => Outcome(r, s1, tries + 1)
      case Again => LocateFrom(s1, q, prefetch, meta, tries + 1)
      case Failed(e) =>
        if tries < q.numTries - 1 then LocateFrom(s1, q, prefetch, meta, tries + 1)
        else Outcome(Err(e), s1, tries + 1)
  }

  lemma AttemptKeepsConsistency(s: CacheState, q: Request, prefetch: bool, a: MetaAttempt)
    ensures Consistent(s) ==> Consistent(AttemptStep(s, q, prefetch, a).1)
  {
  }

  /** locateRegionInMeta: a cache hit first, when the cache is in use, then the loop. */
  function Locate(s: CacheState, q: Request, prefetch: bool, meta: nat -> MetaAttempt): Outcome
  {
    var hit := CachedLocation(s.tables, q.table, q.row);
    if q.useCache && hit.Some? then Outcome(Ok(hit.value), s, 0)
    else LocateFrom(s, q, prefetch, meta, 0)
  }

  /** The attempt answers that make the loop throw TableNotFound. */
  predicate ReportsTableNotFound(a: MetaAttempt, table: TableName) {
    match a
    case MetaNotLocated => false
    case MetaUnreachable(e) => e == TableNotFound
    case MetaReached(_, lookup) =>
      if lookup.Err? then lookup.error == TableNotFound
      else lookup.value.None? || (lookup.value.value.info.Some? && lookup.value.value.info.value.table != table)
  }

  /** The loop never makes more than localNumRetries attempts (one when retry is off). */
  lemma AttemptsBounded(s: CacheState, q: Request, prefetch: bool, meta: nat -> MetaAttempt)
    ensures Locate(s, q, prefetch, meta).attempts <= LocalNumRetries(q)
    ensures !q.retry ==> Locate(s, q, prefetch, meta).attempts <= 1
  {
  }

  /**
   * A located region belongs to the table asked for, and afterwards the
   * cache holds it at its start key, or a newer location of that region.
   */
  lemma {:induction false} LocatedIsCached(s: CacheState, q: Request, prefetch: bool, meta: nat -> MetaAttempt, tries: nat)
    requires Consistent(s)
    requires LocateFrom(s, q, prefetch, meta, tries).result.Ok?
    ensures var o := LocateFrom(s, q, prefetch, meta, tries);
      var l, m := o.result.value, TableOf(o.state.tables, q.table);
      l.region.table == q.table && l.region.startKey in m
      && (m[l.region.startKey] == l || m[l.region.startKey].seqNum > l.seqNum)
    decreases LocalNumRetries(q) - tries
  {
    var o := LocateFrom(s, q, prefetch, meta, tries);
    var (step, s1) := AttemptStep(s, q, prefetch, meta(tries));
    AttemptKeepsConsistency(s, q, prefetch, meta(tries));
    if step.Again? || step.Failed? {
      LocatedIsCached(s1, q, prefetch, meta, tries + 1);
    } else {
      match meta(tries)
      case MetaReached(scan, lookup) =>
        var hit := CachedLocation(s.tables, q.table, q.row);
        if q.useCache && hit.Some? {
          CachedLocationIsStored(s, q.table, q.row);
        } else {
          var s0 := if !q.useCache then ForceDelete(s, q.table, q.row)
                    else if prefetch then Prefetch(s, q.table, scan)
                    else s;
          var hit1 := CachedLocation(s0.tables, q.table, q.row);
          if q.useCache && hit1.Some? {
            CachedLocationIsStored(s0, q.table, q.row);
          }
        }
    }
  }

  /** With the cache in use or not, a result always comes with the cache rule above. */
  lemma LocateResultIsCached(s: CacheState, q: Request, prefetch: bool, meta: nat -> MetaAttempt)
    requires Consistent(s)
    requires Locate(s, q, prefetch, meta).result.Ok?
    ensures var o := Locate(s, q, prefetch, meta);
      var l, m := o.result.value, TableOf(o.state.tables, q.table);
      l.region.table == q.table && l.region.startKey in m
      && (m[l.region.startKey] == l || m[l.region.startKey].seqNum > l.seqNum)
  {
    var hit := CachedLocation(s.tables, q.table, q.row);
    if q.useCache && hit.Some? {
      CachedLocationIsStored(s, q.table, q.row);
    } else {
      LocatedIsCached(s, q, prefetch, meta, 0);
    }
  }

  /**
   * Without the cache every location returned passed validation: a region
   * of the table, neither split nor offline, on a server not known dead.
   */
  lemma {:induction false} UncachedResultIsValidated(s: CacheState, q: Request, prefetch: bool, meta: nat -> MetaAttempt, tries: nat)
    requires !q.useCache
    requires LocateFrom(s, q, prefetch, meta, tries).result.Ok?
    ensures var l := LocateFrom(s, q, prefetch, meta, tries).result.value;
      l.region.table == q.table && !l.region.split && !l.region.offline && l.server !in q.dead
    ensures exists i :: (tries <= i < LocateFrom(s, q, prefetch, meta, tries).attempts &&
      meta(i).MetaReached? && meta(i).lookup.Ok? &&
      ValidateMetaRow(q.table, meta(i).lookup.value, q.dead) == LocateFrom(s, q, prefetch, meta, tries).result)
    decreases LocalNumRetries(q) - tries
  {
    var (step, s1) := AttemptStep(s, q, prefetch, meta(tries));
    if step.Again? || step.Failed? {
      UncachedResultIsValidated(s1, q, prefetch, meta, tries + 1);
    } else {
      assert tries < LocateFrom(s, q, prefetch, meta, tries).attempts;
    }
  }

  /**
   * TableNotFound ends the loop: it comes from the last attempt made, and
   * that attempt reported it.
   */
  lemma {:induction false} TableNotFoundIsNotRetried(s: CacheState, q: Request, prefetch: bool, meta: nat -> MetaAttempt, tries: nat)
    requires LocateFrom(s, q, prefetch, meta, tries).result == Err(TableNotFound)
    ensures var o := LocateFrom(s, q, prefetch, meta, tries);
      tries < o.attempts && ReportsTableNotFound(meta(o.attempts - 1), q.table)
    decreases LocalNumRetries(q) - tries
  {
    var (step, s1) := AttemptStep(s, q, prefetch, meta(tries));
    if step.Again? || step.Failed? {
      if step.Failed? {
        assert step.error != TableNotFound;
      }
      TableNotFoundIsNotRetried(s1, q, prefetch, meta, tries + 1);
    }
  }

  /**
   * When the catalog region is never located, the loop spends every
   * allowed attempt and gives up with NoServerForRegion, cache untouched.
   */
  lemma {:induction false} UnlocatedCatalogExhausts(s: CacheState, q: Request, prefetch: bool, meta: nat -> MetaAttempt, tries: nat)
    requires tries <= LocalNumRetries(q)
    requires forall i :: tries <= i < LocalNumRetries(q) ==> meta(i) == MetaNotLocated
    ensures LocateFrom(s, q, prefetch, meta, tries) == Outcome(Err(NoServerForRegion), s, LocalNumRetries(q))
    decreases LocalNumRetries(q) - tries
  {
    if tries < LocalNumRetries(q) {
      UnlocatedCatalogExhausts(s, q, prefetch, meta, tries + 1);
    }
  }

  /**
   * With retries on, a catalog that stays unreachable makes the loop spend
   * all numTries attempts and throw the last error it caught.
   */
  lemma {:induction false} PersistentFailureRaisesLastError(s: CacheState, q: Request, prefetch: bool, meta: nat -> MetaAttempt, tries: nat)
    requires q.retry && tries < q.numTries
    requires forall i :: tries <= i < q.numTries ==> meta(i).MetaUnreachable? && meta(i).error != TableNotFound
    ensures LocateFrom(s, q, prefetch, meta, tries) == Outcome(Err(meta(q.numTries - 1).error), s, q.numTries)
    decreases q.numTries - tries
  {
    if tries < q.numTries - 1 {
      PersistentFailureRaisesLastError(s, q, prefetch, meta, tries + 1);
    }
  }

  /**
   * With retries off but numTries above one, a caught error is not
   * rethrown: the loop goes round, finds its single attempt spent and
   * throws NoServerForRegion instead.
   */
  lemma NoRetryReplacesError(s: CacheState, q: Request, prefetch: bool, meta: nat -> MetaAttempt)
    requires !q.retry && q.numTries >= 2
    requires meta(0).MetaUnreachable? && meta(0).error != TableNotFound
    ensures LocateFrom(s, q, prefetch, meta, 0) == Outcome(Err(NoServerForRegion), s, 1)
  {
  }

  /**
   * locateRegion: a closed connection and an empty table name are refused;
   * the catalog table's own location comes from the registry and never
   * from the cache; every other table goes through locateRegionInMeta.
   * The registry's answer is a parameter, None when it has none.
   */
  function LocateRegion(closed: bool, s: CacheState, q: Request, prefetch: bool,
                        registry: Option<Location>, meta: nat -> MetaAttempt): (r: (Result<Option<Location>, LocateError>, CacheState))
    ensures closed ==> r == (Err(ConnectionClosed), s)
    ensures !closed && q.table == [] ==> r == (Err(IllegalTableName), s)
    ensures !closed && q.table == MetaTableName ==> r == (Ok(registry), s)
    ensures !closed && q.table != [] && q.table != MetaTableName ==>
      var o := Locate(s, q, prefetch, meta);
      r.1 == o.state && (r.0.Ok? <==> o.result.Ok?) &&
      (o.result.Ok? ==> r.0.value == Some(o.result.value)) &&
      (o.result.Err? ==> r.0 == Err(o.result.error))
  {
    if closed then (Err(ConnectionClosed), s)
    else if q.table == [] then (Err(IllegalTableName), s)
    else if q.table == MetaTableName then (Ok(registry), s)
    else
      var o := Locate(s, q, prefetch, meta);
      match o.result
      case Ok(l) => (Ok(Some(l)), o.state)
      case Err(e) => (Err(e), o.state)
  }

  /** prefetchRegionCache: the visitor loop over the scanned rows. */
  method PrefetchRegionCache(cache: RegionLocationCache, table: TableName, rows: seq<MetaRow>)
    requires cache.Valid()
    modifies cache
    ensures cache.Valid()
    ensures cache.State() == Prefetch(old(cache.State()), table, rows)
    ensures cache.prefetchDisabled == old(cache.prefetchDisabled)
  {
    var i := 0;
    while i < |rows|
      invariant 0 <= i <= |rows|
      invariant cache.Valid()
      invariant cache.prefetchDisabled == old(cache.prefetchDisabled)
      invariant Prefetch(old(cache.State()), table, rows) == Prefetch(cache.State(), table, rows[i..])
      decreases |rows| - i
    {
      assert rows[i..][1..] == rows[i + 1..];
      var row := rows[i];
      if row.info.None? {
        i := i + 1;
        continue;
      }
      if row.info.value.table != table {
        return;
      }
      if row.info.value.offline || row.server.None? {
        i := i + 1;
        continue;
      }
      cache.CacheLocation(table, None, RowLocation(row));
      i := i + 1;
    }
  }

  /**
   * locateRegionInMeta: the loop, proved to compute Locate.  Each attempt's
   * answer is meta(tries); pauses between attempts and the relocation of the
   * catalog region are not modelled.
   */
  method LocateRegionInMeta(cache: RegionLocationCache, q: Request, meta: nat -> MetaAttempt)
    returns (r: Result<Location, LocateError>, attempts: nat)
    requires cache.Valid()
    modifies cache
    ensures cache.Valid()
    ensures cache.prefetchDisabled == old(cache.prefetchDisabled)
    ensures Locate(old(cache.State()), q, old(cache.RegionCachePrefetch(q.table)), meta)
         == Outcome(r, cache.State(), attempts)
  {
    var prefetch := cache.RegionCachePrefetch(q.table);
    if q.useCache {
      var location := CachedLocation(cache.tables, q.table, q.row);
      if location.Some? {
        return Ok(location.value), 0;
      }
    }
    var localNumRetries := LocalNumRetries(q);
    var tries: nat := 0;
    while true
      invariant cache.Valid()
      invariant cache.prefetchDisabled == old(cache.prefetchDisabled)
      invariant prefetch == cache.RegionCachePrefetch(q.table)
      invariant Locate(old(cache.State()), q, prefetch, meta) == LocateFrom(cache.State(), q, prefetch, meta, tries)
      decreases localNumRetries - tries
    {
      if tries >= localNumRetries {
        return Err(NoServerForRegion), tries;
      }
      var step := TryOnce(cache, q, prefetch, meta(tries));
      match step {
        case Return(result) =>
          return result, tries + 1;
        case Again =>
        case Failed(e) =>
          if !(tries < q.numTries - 1) {
            return Err(e), tries + 1;
          }
      }
      tries := tries + 1;
    }
  }

  /** One pass of the loop body, on the cache in place. */
  method TryOnce(cache: RegionLocationCache, q: Request, prefetch: bool, a: MetaAttempt) returns (step: Step)
    requires cache.Valid()
    modifies cache
    ensures cache.Valid()
    ensures cache.prefetchDisabled == old(cache.prefetchDisabled)
    ensures (step, cache.State()) == AttemptStep(old(cache.State()), q, prefetch, a)
  {
    match a
    case MetaNotLocated => return Again;
    case MetaUnreachable(e) => return Thrown(e);
    case MetaReached(scan, lookup) =>
      if q.useCache {
        var location := CachedLocation(cache.tables, q.table, q.row);
        if location.Some? {
          return Return(Ok(location.value));
        }
        if prefetch {
          PrefetchRegionCache(cache, q.table, scan);
        }
        location := CachedLocation(cache.tables, q.table, q.row);
        if location.Some? {
          return Return(Ok(location.value));
        }
      } else {
        cache.ForceDeleteCachedLocation(q.table, q.row);
      }
      if lookup.Err? {
        return Thrown(lookup.error);
      }
      var v := ValidateMetaRow(q.table, lookup.value, q.dead);
      if v.Err? {
        return Thrown(v.error);
      }
      cache.CacheLocation(q.table, None, v.value);
      return Return(v);
  }
}
