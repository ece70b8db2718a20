/**
 * The connection object and the shared state of its master services, as
 * classes whose fields the operations update in place.  Each method is
 * proved to move the object's state exactly as the matching function of
 * module Lifecycle does; the invariant is proved there, on those functions.
 */
module Connections {
  import opened Wrappers
  import opened Locations
  import opened KeepAlive
  import opened StubPool
  import opened Lifecycle

  /** The state of one master service: its stub (null or not), its users and its deadline. */
  class MasterServiceState {
    var hasStub: bool
    var userCount: int
    var keepAliveUntil: int

    constructor ()
      ensures State() == Fresh
    {
      hasStub := false;
      userCount := 0;
      keepAliveUntil := LongMax;
    }

    ghost function State(): Lease
      reads this
    {
      Lease(hasStub, userCount, keepAliveUntil)
    }
  }

  class Connection {
    const managed: bool
    var closed: bool
    var aborted: bool
    var refCount: int
    /** keepAliveZookeeper != null, its user count and its closing deadline. */
    var hasZooKeeper: bool
    var zooKeeperUserCount: int
    var zooKeeperAliveUntil: int
    const adminMaster: MasterServiceState
    const monitorMaster: MasterServiceState
    var stubs: Stubs
    /** The delayed-closing chore was told to stop. */
    var choreStopped: bool

    ghost function State(): ConnState
      reads this, adminMaster, monitorMaster
    {
      ConnState(managed, closed, aborted, refCount,
        Lease(hasZooKeeper, zooKeeperUserCount, zooKeeperAliveUntil),
        adminMaster.State(), monitorMaster.State(), stubs, choreStopped)
    }

    /** The two master services have separate state. */
    predicate Distinct() {
      adminMaster != monitorMaster
    }

    constructor (managed: bool)
      ensures Distinct() && State() == Initial(managed)
      ensures fresh(adminMaster) && fresh(monitorMaster)
    {
      this.managed := managed;
      closed := false;
      aborted := false;
      refCount := 0;
      hasZooKeeper := false;
      zooKeeperUserCount := 0;
      zooKeeperAliveUntil := LongMax;
      adminMaster := new MasterServiceState();
      monitorMaster := new MasterServiceState();
      stubs := map[];
      choreStopped := false;
    }

    function MasterState(m: Master): (mss: MasterServiceState)
      ensures mss == adminMaster || mss == monitorMaster
    {
      match m
      case AdminMaster => adminMaster
      case MonitorMaster => monitorMaster
    }

    method IncCount()
      modifies this
      ensures State() == Lifecycle.IncCount(old(State()))
    {
      refCount := refCount + 1;
    }

    method DecCount()
      modifies this
      ensures State() == Lifecycle.DecCount(old(State()))
    {
      if refCount > 0 {
        refCount := refCount - 1;
      }
    }

    function IsZeroReference(): (r: bool)
      reads this, adminMaster, monitorMaster
      ensures r == Lifecycle.IsZeroReference(State())
    {
      refCount == 0
    }

    method GetKeepAliveZooKeeperWatcher() returns (r: Result<(), ConnectError>)
      modifies this
      ensures r.Ok? <==> GetZooKeeper(old(State())).Ok?
      ensures r.Ok? ==> State() == GetZooKeeper(old(State())).value
      ensures r.Err? ==> r.error == GetZooKeeper(old(State())).error && State() == old(State())
    {
      if !hasZooKeeper {
        if closed {
          return Err(ConnectionClosed);
        }
        hasZooKeeper := true;
      }
      zooKeeperUserCount := zooKeeperUserCount + 1;
      zooKeeperAliveUntil := LongMax;
      r := Ok(());
    }

    /** `held` is false when the caller hands back a null watcher. */
    method ReleaseZooKeeperWatcher(held: bool, now: int)
      modifies this
      ensures State() == ReleaseZooKeeper(old(State()), held, now)
    {
      if !held {
        return;
      }
      zooKeeperUserCount := zooKeeperUserCount - 1;
      if zooKeeperUserCount <= 0 {
        zooKeeperAliveUntil := WrapLong(now + KeepAliveMillis);
      }
    }

    method CloseZooKeeperWatcher()
      modifies this
      ensures State() == CloseZooKeeper(old(State()))
    {
      if hasZooKeeper {
        hasZooKeeper := false;
      }
      zooKeeperUserCount := 0;
    }

    method ResetMasterServiceState(mss: MasterServiceState)
      requires mss == adminMaster || mss == monitorMaster
      modifies mss
      ensures mss.State() == old(mss.State()).(users := old(mss.userCount) + 1, until := LongMax)
    {
      mss.userCount := mss.userCount + 1;
      mss.keepAliveUntil := LongMax;
    }

    /**
     * getKeepAliveMasterAdminService and getKeepAliveMasterMonitorService:
     * `running` is the present stub's answer to isMasterRunning, `made`
     * whether the stub maker could produce a new stub on an open connection.
     */
    method GetKeepAliveMasterService(m: Master, running: bool, made: bool) returns (r: Result<(), ConnectError>)
      requires Distinct()
      modifies adminMaster, monitorMaster
      ensures r.Ok? <==> GetMaster(old(State()), m, running, made).Ok?
      ensures r.Ok? ==> State() == GetMaster(old(State()), m, running, made).value
      ensures r.Err? ==> r.error == MasterNotRunning && State() == old(State())
    {
      var mss := MasterState(m);
      if !(mss.hasStub && running) {
        if closed || !made {
          return Err(MasterNotRunning);
        }
        mss.hasStub := true;
      }
      ResetMasterServiceState(mss);
      r := Ok(());
    }

    method ReleaseMaster(m: Master, now: int)
      requires Distinct()
      modifies adminMaster, monitorMaster
      ensures State() == Lifecycle.ReleaseMaster(old(State()), m, now)
    {
      var mss := MasterState(m);
      if !mss.hasStub {
        return;
      }
      mss.userCount := mss.userCount - 1;
      if mss.userCount <= 0 {
        mss.keepAliveUntil := WrapLong(now + KeepAliveMillis);
      }
    }

    method CloseMasterService(mss: MasterServiceState)
      requires mss == adminMaster || mss == monitorMaster
      modifies mss
      ensures mss.State() == Expire(old(mss.State()))
    {
      if mss.hasStub {
        mss.hasStub := false;
      }
      mss.userCount := 0;
    }

    method CloseMaster()
      requires Distinct()
      modifies adminMaster, monitorMaster
      ensures State() == Lifecycle.CloseMaster(old(State()))
    {
      CloseMasterService(adminMaster);
      CloseMasterService(monitorMaster);
    }

    /** DelayedClosing.closeMasterProtocol. */
    method CloseMasterProtocol(mss: MasterServiceState, now: int)
      requires mss == adminMaster || mss == monitorMaster
      modifies mss
      ensures mss.State() == Sweep(old(mss.State()), now)
    {
      if now > mss.keepAliveUntil {
        CloseMasterService(mss);
        mss.keepAliveUntil := LongMax;
      }
    }

    /** DelayedClosing.chore, reading the clock once as `now`. */
    method Chore(now: int)
      requires Distinct()
      modifies this, adminMaster, monitorMaster
      ensures State() == Lifecycle.Chore(old(State()), now)
    {
      if CanCloseZooKeeper {
        if now > zooKeeperAliveUntil {
          CloseZooKeeperWatcher();
          zooKeeperAliveUntil := LongMax;
        }
      }
      CloseMasterProtocol(adminMaster, now);
      CloseMasterProtocol(monitorMaster, now);
    }

    method InternalClose()
      requires Distinct()
      modifies this, adminMaster, monitorMaster
      ensures State() == Lifecycle.InternalClose(old(State()))
    {
      if closed {
        return;
      }
      choreStopped := true;
      CloseMaster();
      closed := true;
      CloseZooKeeperWatcher();
      stubs := map[];
    }

    /** getClient and getAdmin: `dead` is isDeadServer(sn), `channel` the RPC channel a new stub would use. */
    method GetStub(service: Service, sn: ServerName, dead: bool, channel: nat) returns (r: Result<Stub, ConnectError>)
      modifies this
      ensures r.Ok? <==> Lifecycle.GetStub(old(State()), service, sn, dead, channel).Ok?
      ensures r.Ok? ==> (State(), r.value) == Lifecycle.GetStub(old(State()), service, sn, dead, channel).value
      ensures r.Err? ==> r.error == RegionServerStopped && State() == old(State())
    {
      if dead {
        return Err(RegionServerStopped);
      }
      var key := StubKey(ServiceName(service), HostAndPort(sn));
      var stub;
      if key in stubs {
        stub := stubs[key];
      } else {
        stub := Stub(ServiceName(service), sn, channel);
        stubs := stubs[key := stub];
      }
      r := Ok(stub);
    }

    method GetClient(sn: ServerName, dead: bool, channel: nat) returns (r: Result<Stub, ConnectError>)
      modifies this
      ensures r.Ok? <==> !dead
      ensures r.Ok? ==> (State(), r.value) == Lifecycle.GetStub(old(State()), ClientService, sn, dead, channel).value
      ensures r.Err? ==> r.error == RegionServerStopped && State() == old(State())
    {
      r := GetStub(ClientService, sn, dead, channel);
    }

    method GetAdmin(sn: ServerName, dead: bool, channel: nat) returns (r: Result<Stub, ConnectError>)
      modifies this
      ensures r.Ok? <==> !dead
      ensures r.Ok? ==> (State(), r.value) == Lifecycle.GetStub(old(State()), AdminService, sn, dead, channel).value
      ensures r.Err? ==> r.error == RegionServerStopped && State() == old(State())
    {
      r := GetStub(AdminService, sn, dead, channel);
    }
  }
}
