/**
 * The process-wide registry of managed connections (CONNECTION_INSTANCES):
 * one shared connection per connection key, reference-counted by its users
 * and closed when the last of them lets go or when it is found stale.
 */
module ConnectionRegistry {
  import opened Lifecycle
  import opened Connections

  /**
   * HConnectionKey: the connection-relevant properties of a configuration,
   * compared by value.
   */
  type ConnectionKey = map<string, string>

  /** Two connections share no master service state. */
  predicate Apart(c: Connection, d: Connection) {
    && c.adminMaster != d.adminMaster && c.adminMaster != d.monitorMaster
    && c.monitorMaster != d.adminMaster && c.monitorMaster != d.monitorMaster
  }

  /** Releasing a reference to a connection in state s0 drops it when the count reaches zero or it is stale. */
  predicate Drops(s0: ConnState, stale: bool) {
    IsZeroReference(DecCount(s0)) || stale
  }

  /** The connection's state after one release: decremented, and closed when dropped. */
  function Released(s0: ConnState, stale: bool): ConnState {
    if Drops(s0, stale) then InternalClose(DecCount(s0)) else DecCount(s0)
  }

  /**
   * abort, when it does more than drop a watcher whose session expired: the
   * connection is marked aborted, closed through the registry as stale when
   * managed and `registered`, closed directly when unmanaged, and in every
   * case marked closed.
   */
  function Aborted(s0: ConnState, registered: bool): ConnState {
    var s1 := s0.(aborted := true);
    (if !s0.managed then InternalClose(s1) else if registered then Released(s1, true) else s1).(closed := true)
  }

  /**
   * finalize: the count is set to one and the connection closed, through
   * the registry when managed and `registered`, directly when unmanaged.
   */
  function Finalized(s0: ConnState, registered: bool): ConnState {
    var s1 := s0.(refCount := 1);
    if !s0.managed then InternalClose(s1) else if registered then Released(s1, s0.aborted) else s1
  }

  /**
   * An aborted connection ends aborted and closed; one that was open and
   * is unmanaged or registered has released everything it held, and a
   * registered one has given up one reference.
   */
  lemma AbortReleases(s0: ConnState, registered: bool)
    ensures var a := Aborted(s0, registered);
      && a.closed && a.aborted && a.managed == s0.managed
      && (!s0.closed && (!s0.managed || registered) ==>
            && a.choreStopped && a.stubs == map[]
            && !a.zooKeeper.open && !a.admin.open && !a.monitor.open)
      && (s0.managed && registered ==> a.refCount == Dec(s0.refCount))
      && (s0.managed && !registered ==> a == s0.(aborted := true, closed := true))
  {
  }

  /**
   * Finalizing an unmanaged or registered connection leaves it closed; an
   * open one has released everything it held.  A registered connection
   * ends unreferenced, whatever its count was.
   */
  lemma FinalizeReleases(s0: ConnState, registered: bool)
    requires !s0.managed || registered
    ensures var f := Finalized(s0, registered);
      && f.closed && f.managed == s0.managed && f.aborted == s0.aborted
      && (!s0.closed ==> f.choreStopped && f.stubs == map[] && !f.zooKeeper.open && !f.admin.open && !f.monitor.open)
      && (s0.managed ==> f.refCount == 0)
      && (!s0.managed ==> f.refCount == 1)
  {
  }

  /**
   * What deleteConnection(key, stale) does to the registry and to the
   * connection under `key`, whose state goes from s0 to s1: its entry is
   * removed exactly when the connection is dropped.
   */
  ghost predicate Deleted(before: map<ConnectionKey, Connection>, after: map<ConnectionKey, Connection>,
                          key: ConnectionKey, s0: ConnState, s1: ConnState, stale: bool)
  {
    && s1 == Released(s0, stale)
    && after == if Drops(s0, stale) then before - {key} else before
  }

  /** Distinct keys hold distinct connections that share no master service state. */
  ghost predicate Injective(m: map<ConnectionKey, Connection>) {
    forall k1, k2 :: Separated(m, k1, k2)
  }

  /** The entries under two distinct keys of m are distinct and apart. */
  predicate Separated(m: map<ConnectionKey, Connection>, k1: ConnectionKey, k2: ConnectionKey) {
    k1 in m && k2 in m && k1 != k2 ==> m[k1] != m[k2] && Apart(m[k1], m[k2])
  }

  lemma InjectiveShrinks(m: map<ConnectionKey, Connection>, sub: map<ConnectionKey, Connection>)
    requires Injective(m)
    requires forall k :: k in sub ==> k in m && sub[k] == m[k]
    ensures Injective(sub)
  {
    forall k1, k2
      ensures Separated(sub, k1, k2)
    {
      assert Separated(m, k1, k2);
    }
  }

  lemma InjectiveGrows(m: map<ConnectionKey, Connection>, key: ConnectionKey, c: Connection)
    requires Injective(m) && key !in m
    requires forall k :: k in m ==> m[k] != c && Apart(m[k], c)
    ensures Injective(m[key := c])
  {
    var grown := m[key := c];
    forall k1, k2
      ensures Separated(grown, k1, k2)
    {
      assert Separated(m, k1, k2);
    }
  }

  /** Every connection of m is managed and referenced at least once. */
  ghost predicate Counted(m: map<ConnectionKey, Connection>)
    reads m.Values
  {
    forall k :: k in m ==> m[k].managed && m[k].refCount >= 1 && m[k].Distinct()
  }

  /** The master service states of the connections of m. */
  function MastersOf(m: map<ConnectionKey, Connection>): set<object> {
    (set k | k in m :: m[k].adminMaster as object) + (set k | k in m :: m[k].monitorMaster as object)
  }

  /** The state of every connection of m. */
  ghost function StatesOf(m: map<ConnectionKey, Connection>): (r: map<ConnectionKey, ConnState>)
    reads m.Values, MastersOf(m)
    ensures r.Keys == m.Keys
  {
    map k | k in m :: m[k].State()
  }

  /**
   * deleteAllConnections part-way, on values: the keys still to visit hold
   * their connections as they were (`initial`), every visited one has been
   * released once and is still registered exactly when it was not dropped.
   */
  ghost predicate Swept(keys: set<ConnectionKey>, instances: map<ConnectionKey, Connection>,
                  all: map<ConnectionKey, Connection>, states: map<ConnectionKey, ConnState>,
                  initial: map<ConnectionKey, ConnState>)
  {
    && Injective(all) && initial.Keys == all.Keys && states.Keys == all.Keys
    && keys <= instances.Keys
    && (forall k :: k in instances ==> k in all && instances[k] == all[k])
    && (forall k :: k in keys ==> states[k] == initial[k])
    && (forall k :: k in all && k !in keys ==>
          states[k] == Released(initial[k], false)
          && (k in instances <==> !Drops(initial[k], false)))
  }

  /** Releasing the connection under one more key advances the sweep by that key. */
  lemma SweptStep(keys: set<ConnectionKey>, key: ConnectionKey,
                  before: map<ConnectionKey, Connection>, after: map<ConnectionKey, Connection>,
                  all: map<ConnectionKey, Connection>, s0: map<ConnectionKey, ConnState>,
                  s1: map<ConnectionKey, ConnState>, initial: map<ConnectionKey, ConnState>)
    requires Swept(keys, before, all, s0, initial) && key in keys
    requires s1.Keys == s0.Keys && s1[key] == Released(s0[key], false)
    requires forall k :: k in s0 && k != key ==> s1[k] == s0[k]
    requires key in after <==> !Drops(s0[key], false)
    requires forall k :: k != key ==> (k in after <==> k in before)
    requires forall k :: k in after ==> k in before && after[k] == before[k]
    ensures Swept(keys - {key}, after, all, s1, initial)
  {
    assert s1[key] == Released(initial[key], false);
    assert forall k :: k in all && k !in keys - {key} && k != key ==>
      s1[k] == Released(initial[k], false) && (k in after <==> !Drops(initial[k], false));
  }

  class Registry {
    var instances: map<ConnectionKey, Connection>

    /** The objects deleteConnection(key, _) may change. */
    ghost function Entry(key: ConnectionKey): set<object>
      reads this
    {
      if key in instances then {instances[key], instances[key].adminMaster, instances[key].monitorMaster}
      else {}
    }

    ghost predicate Valid()
      reads this, instances.Values
    {
      Counted(instances) && Injective(instances)
    }

    /** A connection outside the registry shares no state with the registered ones. */
    ghost predicate Separate(c: Connection)
      reads this
    {
      forall k :: k in instances ==> instances[k] == c || Apart(instances[k], c)
    }

    constructor ()
      ensures Valid() && instances == map[]
    {
      instances := map[];
    }

    /** deleteConnection(key, stale); an unknown key is only logged. */
    method DeleteConnection(key: ConnectionKey, stale: bool)
      requires Valid()
      modifies this, Entry(key)
      ensures Valid()
      ensures key !in old(instances) ==> instances == old(instances)
      ensures key in old(instances) ==>
        Deleted(old(instances), instances, key, old(instances[key].State()), old(instances[key]).State(), stale)
    {
      if key in instances {
        Release(key, stale);
      }
    }

    /** The registered branch of deleteConnection: decrement, and drop and close when due. */
    method Release(key: ConnectionKey, stale: bool)
      requires Valid() && key in instances
      modifies this, Entry(key)
      ensures Valid()
      ensures Deleted(old(instances), instances, key, old(instances[key].State()), old(instances[key]).State(), stale)
    {
      var connection := instances[key];
      connection.DecCount();
      if connection.IsZeroReference() || stale {
        ghost var rest := instances - {key};
        forall j | j in rest
          ensures rest[j] != connection
        {
          assert Separated(instances, j, key);
        }
        InjectiveShrinks(instances, rest);
        instances := instances - {key};
        connection.InternalClose();
      }
    }

    method GetConnection(key: ConnectionKey) returns (c: Connection)
      requires Valid()
      modifies this, Entry(key)
      ensures Valid()
      ensures key in instances && instances[key] == c && c.managed && !c.closed
      ensures old(key in instances && !instances[key].closed) ==>
        c == old(instances[key]) && c.State() == IncCount(old(c.State()))
      ensures !old(key in instances && !instances[key].closed) ==>
        fresh(c) && c.State() == IncCount(Initial(true))
      ensures old(key in instances && instances[key].closed) ==>
        old(instances[key]).State() == DecCount(old(instances[key].State()))
      ensures forall k :: k != key ==> (k in instances <==> k in old(instances))
      ensures forall k :: k != key && k in instances ==> instances[k] == old(instances[k])
    {
      if key !in instances {
        c := Register(key);
      } else if instances[key].closed {
        c := Replace(key);
      } else {
        c := Reuse(key);
      }
    }

    /** A closed connection under `key` is released as stale and a new one takes its place. */
    method Replace(key: ConnectionKey) returns (c: Connection)
      requires Valid() && key in instances && instances[key].closed
      modifies this, Entry(key)
      ensures Valid() && fresh(c) && instances == old(instances)[key := c]
      ensures c.State() == IncCount(Initial(true))
      ensures old(instances[key]).State() == DecCount(old(instances[key].State()))
    {
      DeleteConnection(key, true);
      c := Register(key);
    }

    /** The open connection under `key` takes one more reference. */
    method Reuse(key: ConnectionKey) returns (c: Connection)
      requires Valid() && key in instances
      modifies instances[key]
      ensures Valid() && instances == old(instances)
      ensures c == instances[key] && c.State() == IncCount(old(c.State()))
    {
      c := instances[key];
      c.IncCount();
    }

    /** A new managed connection is put under `key` and takes its first reference. */
    method Register(key: ConnectionKey) returns (c: Connection)
      requires Valid() && key !in instances
      modifies this
      ensures Valid() && fresh(c) && instances == old(instances)[key := c]
      ensures c.State() == IncCount(Initial(true))
    {
      c := new Connection(true);
      assert forall k :: k in instances ==> instances[k] != c && Apart(instances[k], c);
      InjectiveGrows(instances, key, c);
      instances := instances[key := c];
      c.IncCount();
    }

    /** deleteConnection(connection, stale): the entry is found by identity. */
    method DeleteConnectionOf(c: Connection, stale: bool)
      requires Valid()
      modifies this, c, c.adminMaster, c.monitorMaster
      ensures Valid()
      ensures c !in old(instances.Values) ==> instances == old(instances) && c.State() == old(c.State())
      ensures forall k :: k in old(instances) && old(instances[k]) == c ==>
        Deleted(old(instances), instances, k, old(c.State()), c.State(), stale)
    {
      if k :| k in instances && instances[k] == c {
        forall j | j in instances && instances[j] == c
          ensures j == k
        {
          assert Separated(instances, j, k);
        }
        DeleteConnection(k, stale);
      }
    }

    /**
     * deleteAllConnections: every registered connection is released once,
     * the ones that reach zero are closed, and the registry is emptied.
     */
    method DeleteAllConnections()
      requires Valid()
      modifies this, instances.Values, MastersOf(instances)
      ensures Valid() && instances == map[]
      ensures forall k :: k in old(instances) ==>
        old(instances[k]).State() == Released(old(instances[k].State()), false)
    {
      var keys := instances.Keys;
      ghost var all := instances;
      ghost var initial := StatesOf(all);
      while keys != {}
        invariant Sweeping(keys, all, initial)
        invariant forall k :: k in all ==> initial[k] == old(all[k].State())
        decreases keys
      {
        var k :| k in keys;
        ReleaseOne(k, keys, all, initial);
        keys := keys - {k};
      }
      SweepDone(all, initial);
      Clear(all, map k | k in all :: Released(initial[k], false));
    }

    /** The state of deleteAllConnections part-way, over the registry as it now is. */
    ghost predicate Sweeping(keys: set<ConnectionKey>, all: map<ConnectionKey, Connection>,
                             initial: map<ConnectionKey, ConnState>)
      reads this, instances.Values, all.Values, MastersOf(all)
    {
      Counted(instances) && Swept(keys, instances, all, StatesOf(all), initial)
    }

    /** CONNECTION_INSTANCES.clear(), which leaves the connections themselves alone. */
    method Clear(ghost all: map<ConnectionKey, Connection>, ghost states: map<ConnectionKey, ConnState>)
      requires forall k :: k in all ==> k in states && all[k].State() == states[k]
      modifies this
      ensures Valid() && instances == map[]
      ensures forall k :: k in all ==> all[k].State() == states[k]
    {
      instances := map[];
    }

    lemma SweepDone(all: map<ConnectionKey, Connection>, initial: map<ConnectionKey, ConnState>)
      requires Sweeping({}, all, initial)
      ensures forall k :: k in all ==> all[k].State() == Released(initial[k], false)
    {
      forall k | k in all
        ensures all[k].State() == Released(initial[k], false)
      {
        assert StatesOf(all)[k] == all[k].State();
      }
    }

    /** One step of deleteAllConnections: deleteConnection(key, false). */
    method ReleaseOne(key: ConnectionKey, ghost keys: set<ConnectionKey>,
                      ghost all: map<ConnectionKey, Connection>, ghost initial: map<ConnectionKey, ConnState>)
      requires Sweeping(keys, all, initial) && key in keys
      modifies this, Entry(key)
      ensures Sweeping(keys - {key}, all, initial)
    {
      ghost var before, states := instances, StatesOf(all);
      InjectiveShrinks(all, instances);
      DeleteAmong(key, all);
      ghost var after := StatesOf(all);
      assert after[key] == Released(states[key], false);
      assert forall k :: k in states && k != key ==> after[k] == states[k];
      SweptStep(keys, key, before, instances, all, states, after, initial);
    }

    /** deleteConnection(key, false), seen on the states of the connections of `all`. */
    method DeleteAmong(key: ConnectionKey, ghost all: map<ConnectionKey, Connection>)
      requires Valid() && Injective(all) && key in instances
      requires forall k :: k in instances ==> k in all && instances[k] == all[k]
      modifies this, Entry(key)
      ensures Valid()
      ensures all[key].State() == Released(old(all[key].State()), false)
      ensures key in instances <==> !Drops(old(all[key].State()), false)
      ensures forall k :: k != key ==> (k in instances <==> k in old(instances))
      ensures forall k :: k in instances ==> k in old(instances) && instances[k] == old(instances[k])
      ensures forall k :: k in all && k != key ==> all[k].State() == old(all[k].State())
    {
      DeleteKeeping(key, all);
    }

    /** deleteConnection(key, false), with the connections of `all` other than key's left alone. */
    method DeleteKeeping(key: ConnectionKey, ghost all: map<ConnectionKey, Connection>)
      requires Valid() && Injective(all) && key in instances
      requires forall k :: k in instances ==> k in all && instances[k] == all[k]
      modifies this, Entry(key)
      ensures Valid()
      ensures all[key].State() == Released(old(all[key].State()), false)
      ensures key in instances <==> !Drops(old(all[key].State()), false)
      ensures forall k :: k != key ==> (k in instances <==> k in old(instances))
      ensures forall k :: k in instances ==> k in old(instances) && instances[k] == old(instances[k])
      ensures forall k :: k in all && k != key ==>
        unchanged(all[k]) && unchanged(all[k].adminMaster) && unchanged(all[k].monitorMaster)
    {
      ghost var c := instances[key];
      DeleteConnection(key, false);
      forall k | k in all && k != key
        ensures all[k] != c && Apart(all[k], c)
      {
        assert Separated(all, k, key);
      }
    }

    /** HConnectionImplementation.close: managed connections go through the registry. */
    method Close(c: Connection)
      requires Valid() && c.Distinct() && Separate(c)
      modifies this, c, c.adminMaster, c.monitorMaster
      ensures Valid()
      ensures c.managed ==> forall k :: k in old(instances) && old(instances[k]) == c ==>
        Deleted(old(instances), instances, k, old(c.State()), c.State(), c.aborted)
      ensures c.managed && c !in old(instances.Values) ==> instances == old(instances) && c.State() == old(c.State())
      ensures !c.managed ==> instances == old(instances) && c.State() == InternalClose(old(c.State()))
    {
      if c.managed {
        if c.aborted {
          DeleteConnectionOf(c, true);
        } else {
          DeleteConnectionOf(c, false);
        }
      } else {
        c.InternalClose();
      }
    }

    /**
     * HConnectionImplementation.abort: a lost ZooKeeper session only drops
     * the watcher; anything else marks the connection aborted, closes it as
     * stale and marks it closed.
     */
    method Abort(c: Connection, sessionExpired: bool)
      requires Valid() && c.Distinct() && Separate(c)
      modifies this, c, c.adminMaster, c.monitorMaster
      ensures Valid()
      ensures sessionExpired && old(c.hasZooKeeper) ==>
        instances == old(instances) && c.State() == CloseZooKeeper(old(c.State()))
      ensures !(sessionExpired && old(c.hasZooKeeper)) ==>
        && c.State() == Aborted(old(c.State()), c in old(instances.Values))
        && c.closed && c.aborted && c !in instances.Values
        && (c in old(instances.Values) ==>
              forall k :: k in old(instances) && old(instances[k]) == c ==> instances == old(instances) - {k})
        && (c !in old(instances.Values) ==> instances == old(instances))
    {
      if sessionExpired && c.hasZooKeeper {
        c.CloseZooKeeperWatcher();
      } else {
        c.aborted := true;
        Close(c);
        c.closed := true;
      }
    }

    /** finalize: pretend the last reference is being released, then close. */
    method Finalize(c: Connection)
      requires Valid() && c.Distinct() && Separate(c)
      modifies this, c, c.adminMaster, c.monitorMaster
      ensures Valid()
      ensures c.State() == Finalized(old(c.State()), c in old(instances.Values))
      ensures c.managed ==> c !in instances.Values
      ensures c in old(instances.Values) || !c.managed ==> c.closed
      ensures c in old(instances.Values) ==>
        forall k :: k in old(instances) && old(instances[k]) == c ==> instances == old(instances) - {k}
      ensures c !in old(instances.Values) ==> instances == old(instances)
    {
      c.refCount := 1;
      Close(c);
    }
  }
}
