/**
 * The life of one connection as a value: its reference count, whether it
 * is closed, its three kept-alive resources (the ZooKeeper watcher, the
 * master admin stub and the master monitor stub) and its pool of region
 * server stubs.  Every operation of the connection's lifecycle is a
 * function from the old state to the new one; the class in module
 * Connections is proved to follow these functions.
 */
module Lifecycle {
  import opened Wrappers
  import opened Locations
  import opened KeepAlive
  import opened StubPool

  /** canCloseZKW: set once to true and never changed. */
  const CanCloseZooKeeper: bool := true

  datatype ConnectError =
    | ConnectionClosed     // IOException: the ZooKeeper watcher is asked of a closed connection
    | MasterNotRunning     // MasterNotRunningException from the stub maker
    | RegionServerStopped  // RegionServerStoppedException: the server is known dead

  datatype ConnState = ConnState(
    managed: bool,
    closed: bool,
    aborted: bool,
    refCount: int,
    zooKeeper: Lease,
    admin: Lease,
    monitor: Lease,
    stubs: Stubs,
    choreStopped: bool)

  /** The two master services, each with its own kept-alive stub. */
  datatype Master = AdminMaster | MonitorMaster

  /** A connection as constructed: open, unreferenced, holding nothing. */
  function Initial(managed: bool): ConnState {
    ConnState(managed, false, false, 0, Fresh, Fresh, Fresh, map[], false)
  }

  /** decCount: the count goes down by one, but never below zero. */
  function Dec(n: int): int {
    if n > 0 then n - 1 else n
  }

  function IncCount(s: ConnState): ConnState {
    s.(refCount := s.refCount + 1)
  }

  function DecCount(s: ConnState): ConnState {
    s.(refCount := Dec(s.refCount))
  }

  predicate IsZeroReference(s: ConnState) {
    s.refCount == 0
  }

  function MasterLease(s: ConnState, m: Master): Lease {
    match m
    case AdminMaster => s.admin
    case MonitorMaster => s.monitor
  }

  function WithMaster(s: ConnState, m: Master, l: Lease): ConnState {
    match m
    case AdminMaster => s.(admin := l)
    case MonitorMaster => s.(monitor := l)
  }

  /** getKeepAliveZooKeeperWatcher: refused only when no watcher exists and the connection is closed. */
  function GetZooKeeper(s: ConnState): Result<ConnState, ConnectError> {
    if !s.zooKeeper.open && s.closed then Err(ConnectionClosed)
    else Ok(s.(zooKeeper := Acquire(s.zooKeeper)))
  }

  /** releaseZooKeeperWatcher: `held` is false when the caller hands back null. */
  function ReleaseZooKeeper(s: ConnState, held: bool, now: int): ConnState {
    if held then s.(zooKeeper := Release(s.zooKeeper, now)) else s
  }

  function CloseZooKeeper(s: ConnState): ConnState {
    s.(zooKeeper := Expire(s.zooKeeper))
  }

  /**
   * getKeepAliveMasterAdminService / getKeepAliveMasterMonitorService: a
   * new stub is made unless the present one answers that the master runs
   * (`running`).  The stub maker gives up at once on a closed connection;
   * on an open one `made` says whether it succeeded within its tries.
   */
  function GetMaster(s: ConnState, m: Master, running: bool, made: bool): Result<ConnState, ConnectError> {
    if !(MasterLease(s, m).open && running) && (s.closed || !made) then Err(MasterNotRunning)
    else Ok(WithMaster(s, m, Acquire(MasterLease(s, m))))
  }

  /** releaseMaster: nothing happens when the service has no stub. */
  function ReleaseMaster(s: ConnState, m: Master, now: int): ConnState {
    if MasterLease(s, m).open then WithMaster(s, m, Release(MasterLease(s, m), now)) else s
  }

  /** closeMaster: both master services are closed at once. */
  function CloseMaster(s: ConnState): ConnState {
    s.(admin := Expire(s.admin), monitor := Expire(s.monitor))
  }

  /** The delayed-closing chore at time `now`. */
  function Chore(s: ConnState, now: int): ConnState {
    s.(zooKeeper := if CanCloseZooKeeper then Sweep(s.zooKeeper, now) else s.zooKeeper,
       admin := Sweep(s.admin, now),
       monitor := Sweep(s.monitor, now))
  }

  /**
   * internalClose: a no-op on a closed connection; otherwise stop the
   * chore, close the masters, mark closed, close the watcher and drop
   * every pooled stub.
   */
  function InternalClose(s: ConnState): ConnState {
    if s.closed then s
    else CloseZooKeeper(CloseMaster(s.(choreStopped := true)).(closed := true)).(stubs := map[])
  }

  /** getClient / getAdmin: refused for a server known dead, else get-or-create in the pool. */
  function GetStub(s: ConnState, service: Service, sn: ServerName, dead: bool, channel: nat)
    : Result<(ConnState, Stub), ConnectError>
  {
    if dead then Err(RegionServerStopped)
    else
      var r := Obtain(s.stubs, ServiceName(service), sn, channel);
      Ok((s.(stubs := r.stubs), r.stub))
  }

  /** The invariant every reachable state keeps. */
  predicate Valid(s: ConnState) {
    && s.refCount >= 0
    && Healthy(s.zooKeeper)
    && Healthy(s.admin)
    && Healthy(s.monitor)
    && Keyed(s.stubs)
  }

  /** One call into the connection; a refused call leaves the state as it was. */
  datatype Op =
    | Inc
    | DecRef
    | TakeZooKeeper
    | GiveZooKeeper(held: bool, now: int)
    | DropZooKeeper
    | TakeMaster(master: Master, running: bool, made: bool)
    | GiveMaster(master: Master, now: int)
    | DropMasters
    | Tick(now: int)
    | Close
    | TakeStub(service: Service, server: ServerName, dead: bool, channel: nat)

  function Apply(s: ConnState, op: Op): ConnState {
    match op
    case Inc => IncCount(s)
    case DecRef => DecCount(s)
    case TakeZooKeeper => if GetZooKeeper(s).Ok? then GetZooKeeper(s).value else s
    case GiveZooKeeper(held, now) => ReleaseZooKeeper(s, held, now)
    case DropZooKeeper => CloseZooKeeper(s)
    case TakeMaster(m, running, made) =>
      if GetMaster(s, m, running, made).Ok? then GetMaster(s, m, running, made).value else s
    case GiveMaster(m, now) => ReleaseMaster(s, m, now)
    case DropMasters => CloseMaster(s)
    case Tick(now) => Chore(s, now)
    case Close => InternalClose(s)
    case TakeStub(service, sn, dead, channel) =>
      if GetStub(s, service, sn, dead, channel).Ok? then GetStub(s, service, sn, dead, channel).value.0 else s
  }

  function Replay(s: ConnState, ops: seq<Op>): ConnState
    decreases |ops|
  {
    if ops == [] then s else Replay(Apply(s, ops[0]), ops[1..])
  }

  /** The ZooKeeper watcher's operations keep the invariant. */
  lemma ZooKeeperStepValid(s: ConnState, op: Op)
    requires Valid(s) && (op.TakeZooKeeper? || op.GiveZooKeeper? || op.DropZooKeeper?)
    ensures Valid(Apply(s, op))
  {
    match op
    case TakeZooKeeper => StepsKeepHealthy(s.zooKeeper, 0);
    case GiveZooKeeper(_, now) => StepsKeepHealthy(s.zooKeeper, now);
    case DropZooKeeper => StepsKeepHealthy(s.zooKeeper, 0);
  }

  /** The master services' operations keep the invariant. */
  lemma MasterStepValid(s: ConnState, op: Op)
    requires Valid(s) && (op.TakeMaster? || op.GiveMaster? || op.DropMasters?)
    ensures Valid(Apply(s, op))
  {
    match op
    case TakeMaster(m, _, _) => StepsKeepHealthy(MasterLease(s, m), 0);
    case GiveMaster(m, now) => StepsKeepHealthy(MasterLease(s, m), now);
    case DropMasters =>
      StepsKeepHealthy(s.admin, 0);
      StepsKeepHealthy(s.monitor, 0);
  }

  /** Every single operation keeps the invariant. */
  lemma ApplyValid(s: ConnState, op: Op)
    requires Valid(s)
    ensures Valid(Apply(s, op))
  {
    if op.TakeZooKeeper? || op.GiveZooKeeper? || op.DropZooKeeper? {
      ZooKeeperStepValid(s, op);
    } else if op.TakeMaster? || op.GiveMaster? || op.DropMasters? {
      MasterStepValid(s, op);
    } else {
      match op
      case TakeStub(service, sn, dead, channel) =>
        if !dead {
          ObtainKeyed(s.stubs, ServiceName(service), sn, channel);
        }
      case Tick(now) =>
        StepsKeepHealthy(s.zooKeeper, now);
        StepsKeepHealthy(s.admin, now);
        StepsKeepHealthy(s.monitor, now);
      case Close =>
        StepsKeepHealthy(s.zooKeeper, 0);
        StepsKeepHealthy(s.admin, 0);
        StepsKeepHealthy(s.monitor, 0);
      case Inc =>
      case DecRef =>
    }
  }

  /** Any sequence of operations keeps the invariant. */
  lemma {:induction false} ReplayValid(s: ConnState, ops: seq<Op>)
    requires Valid(s)
    ensures Valid(Replay(s, ops))
    decreases |ops|
  {
    if ops != [] {
      ApplyValid(s, ops[0]);
      ReplayValid(Apply(s, ops[0]), ops[1..]);
    }
  }

  /**
   * Whatever a connection has been through, the chore never closes a
   * resource somebody still holds, and the reference count never goes
   * negative.
   */
  lemma HeldNeverSwept(managed: bool, ops: seq<Op>, now: int)
    requires IsLong(now)
    ensures var s := Replay(Initial(managed), ops);
      && s.refCount >= 0
      && (s.zooKeeper.users > 0 ==> Chore(s, now).zooKeeper == s.zooKeeper)
      && (s.admin.users > 0 ==> Chore(s, now).admin == s.admin)
      && (s.monitor.users > 0 ==> Chore(s, now).monitor == s.monitor)
  {
    ReplayValid(Initial(managed), ops);
  }

  /**
   * Whatever a connection has been through, a stub it hands out speaks the
   * requested service to the requested address.
   */
  lemma StubMatchesRequest(managed: bool, ops: seq<Op>, service: Service, sn: ServerName, channel: nat)
    ensures var r := GetStub(Replay(Initial(managed), ops), service, sn, false, channel);
      && r.Ok?
      && r.value.1.service == ServiceName(service)
      && HostAndPort(r.value.1.server) == HostAndPort(sn)
  {
    var s := Replay(Initial(managed), ops);
    ReplayValid(Initial(managed), ops);
    ObtainKeyed(s.stubs, ServiceName(service), sn, channel);
  }

  /** A dead server gets no stub, and the pool is left alone. */
  lemma DeadServerRefused(s: ConnState, service: Service, sn: ServerName, channel: nat)
    ensures GetStub(s, service, sn, true, channel) == Err(RegionServerStopped)
    ensures Apply(s, TakeStub(service, sn, true, channel)) == s
  {
  }

  /** Reference counting: incCount then decCount is the identity, and zero is reached from one. */
  lemma CountBalance(s: ConnState)
    requires s.refCount >= 0
    ensures DecCount(IncCount(s)) == s
    ensures IsZeroReference(DecCount(s)) <==> s.refCount <= 1
    ensures DecCount(s).refCount >= 0
  {
  }

  /** internalClose is idempotent. */
  lemma CloseIdempotent(s: ConnState)
    ensures InternalClose(InternalClose(s)) == InternalClose(s)
  {
  }

  /**
   * Closing an open connection releases everything it holds and keeps its
   * identity and reference count; afterwards neither a ZooKeeper watcher
   * nor a master service can be obtained from it.
   */
  lemma CloseReleases(s: ConnState)
    requires !s.closed
    ensures var c := InternalClose(s);
      && c.closed && c.choreStopped
      && !c.zooKeeper.open && c.zooKeeper.users == 0
      && !c.admin.open && c.admin.users == 0
      && !c.monitor.open && c.monitor.users == 0
      && c.stubs == map[]
      && c.managed == s.managed && c.aborted == s.aborted && c.refCount == s.refCount
      && GetZooKeeper(c) == Err(ConnectionClosed)
      && forall m, running, made :: GetMaster(c, m, running, made) == Err(MasterNotRunning)
  {
  }
}
