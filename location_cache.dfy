/**
 * The region-location cache of a connection: per table, a sorted map from
 * region start key to the last known location of that region, and the set
 * of servers that some cached location may point at.
 *
 * The first half of the module gives the cache as a value (CacheState) and
 * every cache operation as a function on it; the class RegionLocationCache
 * at the end holds the same state in fields that its methods update in
 * place, each method specified by the corresponding function.
 */
module LocationCache {
  import opened Wrappers
  import opened Bytes
  import opened Locations

  type TableLocations = map<Bytes, Location>
  type Tables = map<TableName, TableLocations>

  datatype CacheState = CacheState(tables: Tables, servers: set<ServerName>)

  /** The map of a table; a table never seen has an empty one. */
  function TableOf(tables: Tables, table: TableName): TableLocations {
    if table in tables then tables[table] else map[]
  }

  /**
   * The cache invariant.  Every cached location is stored under its own
   * start key, in its own table's map, and its server is in the server set,
   * so that a server absent from the set has no cached location.
   */
  ghost predicate Consistent(s: CacheState) {
    forall t, k :: t in s.tables && k in s.tables[t] ==>
      && s.tables[t][k].server in s.servers
      && s.tables[t][k].region.startKey == k
      && s.tables[t][k].region.table == t
  }

  /** The region whose end key is endKey contains row, as far as its end goes. */
  predicate EndCovers(endKey: Bytes, row: Bytes) {
    endKey == [] || Less(row, endKey)
  }

  /** k is the greatest key of m strictly below row. */
  ghost predicate IsLowerFloor(m: TableLocations, row: Bytes, k: Bytes) {
    k in m && Less(k, row) && forall j :: j in m && Less(j, row) ==> LessEq(j, k)
  }

  lemma LowerFloorUnique(m: TableLocations, row: Bytes, k1: Bytes, k2: Bytes)
    requires IsLowerFloor(m, row, k1) && IsLowerFloor(m, row, k2)
    ensures k1 == k2
  {
    LessAsymmetric(k1, k2);
  }

  /**
   * getCachedLocation: the location of the region of table that holds row.
   * An entry starting exactly at row is returned as it is; otherwise the
   * entry with the greatest start key below row is returned when its end
   * key is empty or above row; in every other case the cache misses.
   */
  function CachedLocation(tables: Tables, table: TableName, row: Bytes): (r: Option<Location>)
    ensures row in TableOf(tables, table) ==> r == Some(TableOf(tables, table)[row])
    ensures row !in TableOf(tables, table) ==>
      (r.Some? <==> exists k :: IsLowerFloor(TableOf(tables, table), row, k)
                                && EndCovers(TableOf(tables, table)[k].region.endKey, row))
    ensures row !in TableOf(tables, table) && r.Some? ==>
      exists k :: IsLowerFloor(TableOf(tables, table), row, k) && r.value == TableOf(tables, table)[k]
  {
    var m := TableOf(tables, table);
    if m == map[] then None
    else if row in m then Some(m[row])
    else
      match LowerKey(m, row)
      case None => None
      case Some(k) =>
        assert IsLowerFloor(m, row, k);
        assert forall j :: IsLowerFloor(m, row, j) ==> j == k by {
          forall j | IsLowerFloor(m, row, j) ensures j == k { LowerFloorUnique(m, row, j, k); }
        }
        if EndCovers(m[k].region.endKey, row) then Some(m[k]) else None
  }

  /** A location the cache returns is the entry stored under its own start key. */
  lemma CachedLocationIsStored(s: CacheState, table: TableName, row: Bytes)
    requires Consistent(s)
    requires CachedLocation(s.tables, table, row).Some?
    ensures var l := CachedLocation(s.tables, table, row).value;
      && l.region.startKey in TableOf(s.tables, table)
      && TableOf(s.tables, table)[l.region.startKey] == l
      && l.region.table == table
      && LessEq(l.region.startKey, row)
  {
    var m := TableOf(s.tables, table);
    if row !in m {
      var k :| IsLowerFloor(m, row, k) && CachedLocation(s.tables, table, row).value == m[k];
    }
  }

  lemma CachedLocationIsStoredIfConsistent(s: CacheState, table: TableName, row: Bytes)
    requires CachedLocation(s.tables, table, row).Some?
    ensures Consistent(s) ==> var l := CachedLocation(s.tables, table, row).value;
      l.region.startKey in TableOf(s.tables, table) && TableOf(s.tables, table)[l.region.startKey] == l
      && l.region.table == table
  {
    if Consistent(s) { CachedLocationIsStored(s, table, row); }
  }

  /** getNumberOfCachedRegionLocations: the number of regions cached for a table. */
  function NumberOfCachedRegionLocations(tables: Tables, table: TableName): (n: nat)
    ensures n == 0 <==> forall row :: CachedLocation(tables, table, row).None?
  {
    CachedKeyHits(tables, table);
    |TableOf(tables, table)|
  }

  /** Looking up a cached start key hits. */
  lemma CachedKeyHits(tables: Tables, table: TableName)
    ensures forall k :: k in TableOf(tables, table) ==> CachedLocation(tables, table, k).Some?
  {
  }

  /**
   * cacheLocation as a function.  A location for a start key not yet cached
   * is always stored.  A location replacing the one that the update came
   * from (a redirect from the server the cache currently names) is always
   * stored.  Otherwise an update read from the meta table (no source) is
   * ignored only when the cached sequence number is greater, and a redirect
   * is ignored when the cached sequence number is greater or equal.  The
   * new location's server joins the server set in every case.
   */
  function Put(s: CacheState, table: TableName, source: Option<Location>, loc: Location): (r: CacheState)
    requires loc.region.table == table
    ensures r.servers == s.servers + {loc.server}
    ensures forall t :: t != table ==> TableOf(r.tables, t) == TableOf(s.tables, t)
    ensures var m, k := TableOf(s.tables, table), loc.region.startKey;
      k !in m ==> TableOf(r.tables, table) == m[k := loc]
    ensures var m, k := TableOf(s.tables, table), loc.region.startKey;
      k in m && source.Some? && SameLocation(m[k], source.value) ==> TableOf(r.tables, table) == m[k := loc]
    ensures var m, k := TableOf(s.tables, table), loc.region.startKey;
      k in m && source.None? ==>
        TableOf(r.tables, table) == if m[k].seqNum > loc.seqNum then m else m[k := loc]
    ensures var m, k := TableOf(s.tables, table), loc.region.startKey;
      k in m && source.Some? && !SameLocation(m[k], source.value) ==>
        TableOf(r.tables, table) == if m[k].seqNum >= loc.seqNum then m else m[k := loc]
    ensures Consistent(s) ==> Consistent(r)
  {
    var m, k := TableOf(s.tables, table), loc.region.startKey;
    var stale :=
      k in m && !(source.Some? && SameLocation(m[k], source.value)) &&
      (if source.None? then m[k].seqNum > loc.seqNum else m[k].seqNum >= loc.seqNum);
    CacheState(s.tables[table := if stale then m else m[k := loc]], s.servers + {loc.server})
  }

  /** One update handed to cacheLocation: where it came from and the new location. */
  datatype Update = Update(source: Option<Location>, location: Location)

  /** A run of cacheLocation calls for one table, oldest first. */
  function PutAll(s: CacheState, table: TableName, updates: seq<Update>): CacheState
    requires forall i :: 0 <= i < |updates| ==> updates[i].location.region.table == table
    decreases |updates|
  {
    if updates == [] then s
    else PutAll(Put(s, table, updates[0].source, updates[0].location), table, updates[1..])
  }

  /**
   * Monotonicity of the cache: when the updates of one region arrive with
   * strictly increasing sequence numbers, all above the cached one, the
   * cache ends up holding the most recent, whatever the sources were.
   */
  lemma {:induction false} NewestUpdateWins(s: CacheState, table: TableName, key: Bytes, updates: seq<Update>)
    requires updates != []
    requires forall i :: 0 <= i < |updates| ==>
      updates[i].location.region.table == table && updates[i].location.region.startKey == key
    requires forall i, j :: 0 <= i < j < |updates| ==> updates[i].location.seqNum < updates[j].location.seqNum
    requires key in TableOf(s.tables, table) ==>
      TableOf(s.tables, table)[key].seqNum < updates[0].location.seqNum
    ensures key in TableOf(PutAll(s, table, updates).tables, table)
    ensures TableOf(PutAll(s, table, updates).tables, table)[key] == updates[|updates| - 1].location
    ensures CachedLocation(PutAll(s, table, updates).tables, table, key) == Some(updates[|updates| - 1].location)
    decreases |updates|
  {
    var s1 := Put(s, table, updates[0].source, updates[0].location);
    assert TableOf(s1.tables, table)[key] == updates[0].location;
    if |updates| > 1 {
      NewestUpdateWins(s1, table, key, updates[1..]);
    }
  }

  /** The entries of m that are not on server sn. */
  function WithoutServer(m: TableLocations, sn: ServerName): TableLocations {
    map k | k in m && m[k].server != sn :: m[k]
  }

  /**
   * clearCaches as a function: nothing happens for a server outside the
   * server set; otherwise every entry on that server goes, in every table,
   * and the server leaves the set.
   */
  function ClearServer(s: CacheState, sn: ServerName): (r: CacheState)
    ensures sn !in s.servers ==> r == s
    ensures sn in s.servers ==> r.servers == s.servers - {sn}
    ensures sn in s.servers ==> r.tables.Keys == s.tables.Keys
    ensures sn in s.servers ==>
      forall t :: t in s.tables ==> r.tables[t] == WithoutServer(s.tables[t], sn)
    ensures Consistent(s) ==> Consistent(r)
  {
    if sn !in s.servers then s
    else CacheState(map t | t in s.tables :: WithoutServer(s.tables[t], sn), s.servers - {sn})
  }

  /**
   * The short cut of clearCaches is sound: in a consistent cache, whether
   * or not the server is in the server set, afterwards exactly the entries
   * on other servers remain and the server is not in the set.
   */
  lemma ClearServerRemovesExactly(s: CacheState, sn: ServerName)
    requires Consistent(s)
    ensures forall t :: TableOf(ClearServer(s, sn).tables, t) == WithoutServer(TableOf(s.tables, t), sn)
    ensures sn !in ClearServer(s, sn).servers
    ensures forall t, k :: k in TableOf(ClearServer(s, sn).tables, t) ==>
      TableOf(ClearServer(s, sn).tables, t)[k].server != sn
  {
    var r := ClearServer(s, sn);
    forall t ensures TableOf(r.tables, t) == WithoutServer(TableOf(s.tables, t), sn) {
      if sn !in s.servers && t in s.tables {
        assert forall k :: k in s.tables[t] ==> s.tables[t][k].server != sn;
        assert WithoutServer(s.tables[t], sn) == s.tables[t];
      }
    }
  }

  /**
   * deleteCachedLocation as a function: the entry at the region's start key
   * goes when there is no source or the entry equals the source; in every
   * other case, and for every other key, the cache is unchanged.
   */
  function DeleteLocation(s: CacheState, hri: RegionInfo, source: Option<Location>): (r: CacheState)
    ensures r.servers == s.servers
    ensures forall t :: t != hri.table ==> TableOf(r.tables, t) == TableOf(s.tables, t)
    ensures var m, k := TableOf(s.tables, hri.table), hri.startKey;
      TableOf(r.tables, hri.table) ==
        if k in m && (source.None? || SameLocation(m[k], source.value)) then m - {k} else m
    ensures Consistent(s) ==> Consistent(r)
  {
    var m, k := TableOf(s.tables, hri.table), hri.startKey;
    if k in m && !(source.Some? && !SameLocation(m[k], source.value))
    then CacheState(s.tables[hri.table := m - {k}], s.servers)
    else s
  }

  /**
   * deleteCachedRegionLocation as a function: whatever is cached at the
   * location's start key goes, whichever server it names; a missing
   * location changes nothing.
   */
  function DeleteRegion(s: CacheState, location: Option<Location>): (r: CacheState)
    ensures r.servers == s.servers
    ensures location.None? ==> r == s
    ensures location.Some? ==> var t := location.value.region.table;
      && TableOf(r.tables, t) == TableOf(s.tables, t) - {location.value.region.startKey}
      && forall u :: u != t ==> TableOf(r.tables, u) == TableOf(s.tables, u)
    ensures Consistent(s) ==> Consistent(r)
  {
    match location
    case None => s
    case Some(l) =>
      var m := TableOf(s.tables, l.region.table);
      if m == map[] then s
      else CacheState(s.tables[l.region.table := m - {l.region.startKey}], s.servers)
  }

  /**
   * forceDeleteCachedLocation as a function: the entry that the cache
   * returns for row, if any, goes; nothing else changes.
   */
  function ForceDelete(s: CacheState, table: TableName, row: Bytes): (r: CacheState)
    ensures r.servers == s.servers
    ensures forall t :: t != table ==> TableOf(r.tables, t) == TableOf(s.tables, t)
    ensures CachedLocation(s.tables, table, row).None? ==> TableOf(r.tables, table) == TableOf(s.tables, table)
    ensures CachedLocation(s.tables, table, row).Some? ==>
      TableOf(r.tables, table) ==
        TableOf(s.tables, table) - {CachedLocation(s.tables, table, row).value.region.startKey}
    ensures Consistent(s) ==> Consistent(r)
  {
    var m := TableOf(s.tables, table);
    if m == map[] then s
    else
      match CachedLocation(s.tables, table, row)
      case None => s
      case Some(rl) => CacheState(s.tables[table := m - {rl.region.startKey}], s.servers)
  }

  /** What the error that a server reported for a row says about its region. */
  datatype Cause =
    | Moved(server: ServerName, seqNum: int)  // RegionMovedException: the region is now there
    | Opening                                 // RegionOpeningException: the region is being opened
    | OtherCause                              // anything else, including no exception at all

  /**
   * updateCachedLocations as a function.  Nothing happens when nothing is
   * cached for the row or the region is opening.  A move replaces the
   * cached entry by the new server unless the redirect is stale; any other
   * error removes the entry when it names the server that reported it.
   */
  function UpdateLocations(s: CacheState, table: TableName, row: Bytes, cause: Cause, source: Location): (r: CacheState)
    ensures CachedLocation(s.tables, table, row).None? ==> r == s
    ensures cause.Opening? ==> r == s
    ensures Consistent(s) ==> Consistent(r)
    ensures Consistent(s) && CachedLocation(s.tables, table, row).Some? && cause.OtherCause? ==>
      var prior, m := CachedLocation(s.tables, table, row).value, TableOf(s.tables, table);
      && r.servers == s.servers
      && (forall t :: t != table ==> TableOf(r.tables, t) == TableOf(s.tables, t))
      && TableOf(r.tables, table) == if SameLocation(prior, source) then m - {prior.region.startKey} else m
    ensures Consistent(s) && CachedLocation(s.tables, table, row).Some? && cause.Moved? ==>
      var prior, m := CachedLocation(s.tables, table, row).value, TableOf(s.tables, table);
      var moved := Location(prior.region, cause.server, cause.seqNum);
      && r.servers == s.servers + {cause.server}
      && (forall t :: t != table ==> TableOf(r.tables, t) == TableOf(s.tables, t))
      && TableOf(r.tables, table) ==
           if SameLocation(prior, source) || prior.seqNum < cause.seqNum then m[prior.region.startKey := moved] else m
  {
    match CachedLocation(s.tables, table, row)
    case None => s
    case Some(prior) =>
      CachedLocationIsStoredIfConsistent(s, table, row);
      match cause
      case Moved(sn, seqNum) => Put(s, prior.region.table, Some(source), Location(prior.region, sn, seqNum))
      case Opening => s
      case OtherCause => DeleteLocation(s, prior.region, Some(source))
  }

  /**
   * The cache of a connection: the fields cachedRegionLocations,
   * cachedServers and regionCachePrefetchDisabledTables of the source's
   * connection implementation.
   */
  class RegionLocationCache {
    var tables: Tables
    var cachedServers: set<ServerName>
    var prefetchDisabled: set<TableName>

    function State(): CacheState
      reads this
    {
      CacheState(tables, cachedServers)
    }

    ghost predicate Valid()
      reads this
    {
      Consistent(State())
    }

    constructor ()
      ensures Valid()
      ensures tables == map[] && cachedServers == {} && prefetchDisabled == {}
    {
      tables, cachedServers, prefetchDisabled := map[], {}, {};
    }

    /** cacheLocation */
    method CacheLocation(table: TableName, source: Option<Location>, location: Location)
      requires Valid()
      requires location.region.table == table
      modifies this
      ensures Valid()
      ensures State() == Put(old(State()), table, source, location)
      ensures prefetchDisabled == old(prefetchDisabled)
    {
      var isFromMeta := source.None?;
      var startKey := location.region.startKey;
      var tableLocations := TableOf(tables, table);
      var isStaleUpdate := false;
      cachedServers := cachedServers + {location.server};
      if startKey in tableLocations && !(source.Some? && SameLocation(tableLocations[startKey], source.value)) {
        var oldLocation := tableLocations[startKey];
        var isStaleMetaRecord := isFromMeta && oldLocation.seqNum > location.seqNum;
        var isStaleRedirect := !isFromMeta && oldLocation.seqNum >= location.seqNum;
        isStaleUpdate := isStaleMetaRecord || isStaleRedirect;
      }
      if !isStaleUpdate {
        tableLocations := tableLocations[startKey := location];
      }
      tables := tables[table := tableLocations];
    }

    /** clearCaches: drop every entry on serverName, table by table, entry by entry. */
    method ClearCaches(serverName: ServerName)
      requires Valid()
      modifies this
      ensures Valid()
      ensures State() == ClearServer(old(State()), serverName)
      ensures prefetchDisabled == old(prefetchDisabled)
    {
      if serverName !in cachedServers {
        return;
      }
      var pending := tables.Keys;
      while pending != {}
        invariant pending <= tables.Keys == old(tables).Keys
        invariant cachedServers == old(cachedServers) && prefetchDisabled == old(prefetchDisabled)
        invariant forall t :: t in tables ==>
          tables[t] == if t in pending then old(tables)[t] else WithoutServer(old(tables)[t], serverName)
        decreases pending
      {
        var t :| t in pending;
        var tableLocations := tables[t];
        var keys := tableLocations.Keys;
        var kept := tableLocations;
        while keys != {}
          invariant keys <= tableLocations.Keys
          invariant kept.Keys <= tableLocations.Keys
          invariant forall k :: k in tableLocations ==>
            (k in kept <==> k in keys || tableLocations[k].server != serverName)
          invariant forall k :: k in kept ==> kept[k] == tableLocations[k]
          decreases keys
        {
          var k :| k in keys;
          if tableLocations[k].server == serverName {
            kept := kept - {k};
          }
          keys := keys - {k};
        }
        assert kept == WithoutServer(tableLocations, serverName);
        tables := tables[t := kept];
        pending := pending - {t};
      }
      assert tables == ClearServer(old(State()), serverName).tables;
      cachedServers := cachedServers - {serverName};
    }

    /** forceDeleteCachedLocation */
    method ForceDeleteCachedLocation(table: TableName, row: Bytes)
      requires Valid()
      modifies this
      ensures Valid()
      ensures State() == ForceDelete(old(State()), table, row)
      ensures prefetchDisabled == old(prefetchDisabled)
    {
      var tableLocations := TableOf(tables, table);
      if tableLocations != map[] {
        var rl := CachedLocation(tables, table, row);
        if rl.Some? {
          tables := tables[table := tableLocations - {rl.value.region.startKey}];
        }
      }
    }

    /** deleteCachedLocation */
    method DeleteCachedLocation(hri: RegionInfo, source: Option<Location>)
      requires Valid()
      modifies this
      ensures Valid()
      ensures State() == DeleteLocation(old(State()), hri, source)
      ensures prefetchDisabled == old(prefetchDisabled)
    {
      var tableLocations := TableOf(tables, hri.table);
      if hri.startKey in tableLocations {
        var oldLocation := tableLocations[hri.startKey];
        var isStaleDelete := source.Some? && !SameLocation(oldLocation, source.value);
        if !isStaleDelete {
          tables := tables[hri.table := tableLocations - {hri.startKey}];
        }
      }
    }

    /** deleteCachedRegionLocation */
    method DeleteCachedRegionLocation(location: Option<Location>)
      requires Valid()
      modifies this
      ensures Valid()
      ensures State() == DeleteRegion(old(State()), location)
      ensures prefetchDisabled == old(prefetchDisabled)
    {
      if location.None? {
        return;
      }
      var t := location.value.region.table;
      var tableLocations := TableOf(tables, t);
      if tableLocations != map[] {
        tables := tables[t := tableLocations - {location.value.region.startKey}];
      }
    }

    /** clearRegionCache(): forget every table and every server. */
    method ClearRegionCache()
      modifies this
      ensures Valid()
      ensures tables == map[] && cachedServers == {}
      ensures prefetchDisabled == old(prefetchDisabled)
    {
      tables := map[];
      cachedServers := {};
    }

    /** clearRegionCache(tableName): forget one table; the server set stays. */
    method ClearRegionCacheOfTable(table: TableName)
      requires Valid()
      modifies this
      ensures Valid()
      ensures tables == old(tables) - {table} && cachedServers == old(cachedServers)
      ensures prefetchDisabled == old(prefetchDisabled)
    {
      tables := tables - {table};
    }

    /** updateCachedLocation: cache a redirect to serverName for region hri. */
    method UpdateCachedLocation(hri: RegionInfo, source: Option<Location>, serverName: ServerName, seqNum: int)
      requires Valid()
      modifies this
      ensures Valid()
      ensures State() == Put(old(State()), hri.table, source, Location(hri, serverName, seqNum))
      ensures prefetchDisabled == old(prefetchDisabled)
    {
      CacheLocation(hri.table, source, Location(hri, serverName, seqNum));
    }

    /** updateCachedLocations: react to the error a server reported for a row. */
    method UpdateCachedLocations(table: TableName, row: Bytes, cause: Cause, source: Location)
      requires Valid()
      modifies this
      ensures Valid()
      ensures State() == UpdateLocations(old(State()), table, row, cause, source)
      ensures prefetchDisabled == old(prefetchDisabled)
    {
      var oldLocation := CachedLocation(tables, table, row);
      if oldLocation.None? {
        return;
      }
      var regionInfo := oldLocation.value.region;
      match cause
      case Moved(sn, seqNum) => UpdateCachedLocation(regionInfo, Some(source), sn, seqNum);
      case Opening =>
      case OtherCause => DeleteCachedLocation(regionInfo, Some(source));
    }

    /** getRegionCachePrefetch */
    predicate RegionCachePrefetch(table: TableName)
      reads this
    {
      table !in prefetchDisabled
    }

    /** setRegionCachePrefetch */
    method SetRegionCachePrefetch(table: TableName, enable: bool)
      modifies this
      ensures RegionCachePrefetch(table) == enable
      ensures forall t :: t != table ==> RegionCachePrefetch(t) == old(RegionCachePrefetch(t))
      ensures tables == old(tables) && cachedServers == old(cachedServers)
    {
      if !enable {
        prefetchDisabled := prefetchDisabled + {table};
      } else {
        prefetchDisabled := prefetchDisabled - {table};
      }
    }
  }
}
