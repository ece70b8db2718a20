/**
 * The connection's pool of RPC stubs to region servers.  A stub is created
 * at most once per (service, "host:port") pair and then reused; the pool
 * key is "<service interface name>@<host:port>".
 */
module StubPool {
  import opened Locations

  /** The package of the generated protocol classes, and the class names of the two blocking service interfaces in it. */
  const GeneratedPackage: string := "org.apache.hadoop.hbase.protobuf.generated."
  const ClientServiceName: string := GeneratedPackage + "ClientProtos$ClientService$BlockingInterface"
  const AdminServiceName: string := GeneratedPackage + "AdminProtos$AdminService$BlockingInterface"

  datatype Service = ClientService | AdminService

  function ServiceName(s: Service): (name: string)
    ensures '@' !in name
  {
    match s
    case ClientService => ClientNameHasNoAt(); ClientServiceName
    case AdminService => AdminNameHasNoAt(); AdminServiceName
  }

  lemma PackageHasNoAt()
    ensures '@' !in GeneratedPackage
  {
  }

  lemma ClientNameHasNoAt()
    ensures '@' !in ClientServiceName
  {
    PackageHasNoAt();
  }

  lemma AdminNameHasNoAt()
    ensures '@' !in AdminServiceName
  {
    PackageHasNoAt();
  }

  /**
   * A stub: the service it speaks, the server it was opened to and the RPC
   * channel it was built on (an identifier supplied by the RPC client).
   */
  datatype Stub = Stub(service: string, server: ServerName, channel: nat)

  type Stubs = map<string, Stub>

  /** The pool key: the service name, '@', then the server's "host:port". */
  function StubKey(service: string, hostAndPort: string): string {
    service + "@" + hostAndPort
  }

  /** Distinct keys for distinct (service, address) pairs, when the service name has no '@'. */
  lemma StubKeyInjective(s1: string, h1: string, s2: string, h2: string)
    requires '@' !in s1 && '@' !in s2
    requires StubKey(s1, h1) == StubKey(s2, h2)
    ensures s1 == s2 && h1 == h2
  {
    var k := StubKey(s1, h1);
    assert k[|s1|] == '@' && k[|s2|] == '@';
    assert forall j :: 0 <= j < |s1| ==> k[j] == s1[j] && k[j] != '@';
    assert forall j :: 0 <= j < |s2| ==> k[j] == s2[j] && k[j] != '@';
    assert |s1| == |s2|;
    assert s1 == k[..|s1|] == s2;
    assert h1 == k[|s1| + 1..] == h2;
  }

  /** A client stub and an admin stub never share a key. */
  lemma ServicesApart(h1: string, h2: string)
    ensures StubKey(ClientServiceName, h1) != StubKey(AdminServiceName, h2)
  {
    assert |GeneratedPackage| == 43;
    assert ClientServiceName[43] == "ClientProtos$ClientService$BlockingInterface"[0] == 'C';
    assert AdminServiceName[43] == "AdminProtos$AdminService$BlockingInterface"[0] == 'A';
    assert StubKey(ClientServiceName, h1)[43] != StubKey(AdminServiceName, h2)[43];
  }

  /** Every pooled stub sits under the key of its own service and address. */
  predicate Keyed(stubs: Stubs) {
    forall k :: k in stubs ==>
      '@' !in stubs[k].service && k == StubKey(stubs[k].service, HostAndPort(stubs[k].server))
  }

  datatype Lookup = Lookup(stubs: Stubs, stub: Stub)

  /**
   * Get-or-create: the stub pooled under the key of (service, sn), or a new
   * stub on `channel`, which is then pooled.
   */
  function Obtain(stubs: Stubs, service: string, sn: ServerName, channel: nat): Lookup {
    var key := StubKey(service, HostAndPort(sn));
    if key in stubs then Lookup(stubs, stubs[key])
    else
      var stub := Stub(service, sn, channel);
      Lookup(stubs[key := stub], stub)
  }

  /**
   * The stub obtained speaks the requested service to the requested
   * address, is the one pooled under its key, and the pool only grows by
   * that key.
   */
  lemma ObtainKeyed(stubs: Stubs, service: string, sn: ServerName, channel: nat)
    requires Keyed(stubs) && '@' !in service
    ensures var r := Obtain(stubs, service, sn, channel);
      && Keyed(r.stubs)
      && r.stub.service == service
      && HostAndPort(r.stub.server) == HostAndPort(sn)
      && StubKey(service, HostAndPort(sn)) in r.stubs
      && r.stubs[StubKey(service, HostAndPort(sn))] == r.stub
      && r.stubs.Keys == stubs.Keys + {StubKey(service, HostAndPort(sn))}
      && (forall k :: k in stubs ==> r.stubs[k] == stubs[k])
  {
    var key := StubKey(service, HostAndPort(sn));
    if key in stubs {
      var pooled := stubs[key];
      StubKeyInjective(pooled.service, HostAndPort(pooled.server), service, HostAndPort(sn));
    }
  }

  /**
   * Create-once: asking again for the same service and address returns the
   * stub of the first call and leaves the pool as the first call left it,
   * whatever channel the second call would have used.
   */
  lemma ObtainOnce(stubs: Stubs, service: string, sn: ServerName, sn2: ServerName, c1: nat, c2: nat)
    requires HostAndPort(sn2) == HostAndPort(sn)
    ensures var first := Obtain(stubs, service, sn, c1);
      Obtain(first.stubs, service, sn2, c2) == first
  {
  }
}
