/**
 * The values the connection passes around: server identities, region
 * descriptors and region locations.  All three are immutable in the
 * source and are replaced, never updated, in the cache.
 */
module Locations {
  import opened Bytes

  type TableName = Bytes

  /** The catalog table ".META.", whose rows describe every user region. */
  const MetaTableName: TableName := [46, 77, 69, 84, 65, 46]

  /** A region server: host, port and the start code of its process. */
  datatype ServerName = ServerName(hostname: string, port: nat, startCode: int)

  /**
   * A region of a table: the half-open key range [startKey, endKey), an
   * empty endKey meaning "to the end of the table".
   */
  datatype RegionInfo = RegionInfo(
    table: TableName,
    startKey: Bytes,
    endKey: Bytes,
    offline: bool,
    split: bool)

  /** Where a region is served, with the sequence number it was opened at. */
  datatype Location = Location(region: RegionInfo, server: ServerName, seqNum: int)

  /**
   * Equality of two locations as the connection uses it (cache staleness,
   * conditional deletion, grouping of a batch per server): two locations
   * are the same when they name the same server.
   */
  predicate SameLocation(a: Location, b: Location) {
    a.server == b.server
  }

  function DecimalDigit(d: nat): char
    requires d < 10
  {
    "0123456789"[d]
  }

  /** The decimal spelling of n, without leading zeros. */
  function Decimal(n: nat): (s: string)
    ensures |s| > 0
    ensures forall i :: 0 <= i < |s| ==> '0' <= s[i] <= '9'
    decreases n
  {
    if n < 10 then [DecimalDigit(n)] else Decimal(n / 10) + [DecimalDigit(n % 10)]
  }

  /** "host:port", the part of a server name that identifies its address. */
  function HostAndPort(sn: ServerName): string
  {
    sn.hostname + ":" + Decimal(sn.port)
  }
}
