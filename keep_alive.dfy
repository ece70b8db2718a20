/**
 * The keep-alive protocol for the connection's shared resources: the
 * ZooKeeper watcher and the two master service stubs.  Each resource counts
 * its users.  While anyone holds it, its closing deadline is Long.MAX_VALUE;
 * when the last user lets go, the deadline becomes "now plus five minutes".
 * A background chore, run once a minute, closes every resource whose
 * deadline has passed.
 */
module KeepAlive {

  const LongMin: int := -0x8000_0000_0000_0000
  const LongMax: int := 0x7FFF_FFFF_FFFF_FFFF
  const LongModulus: int := 0x1_0000_0000_0000_0000

  /** How long an unused resource is kept open: five minutes, in milliseconds. */
  const KeepAliveMillis: int := 5 * 60 * 1000

  predicate IsLong(x: int) {
    LongMin <= x <= LongMax
  }

  /** Java's `long` arithmetic: the result wraps around modulo 2^64. */
  function WrapLong(x: int): (r: int)
    ensures IsLong(r)
    ensures IsLong(x) ==> r == x
    ensures (x - r) % LongModulus == 0
  {
    var r := (x - LongMin) % LongModulus + LongMin;
    assert x - r == LongModulus * ((x - LongMin) / LongModulus);
    r
  }

  /**
   * One shared resource: whether it is open (the watcher or the stub is not
   * null), how many users hold it, and the time after which the chore may
   * close it.
   */
  datatype Lease = Lease(open: bool, users: int, until: int)

  /** A resource never opened: no users, deadline Long.MAX_VALUE. */
  const Fresh: Lease := Lease(false, 0, LongMax)

  /** A user takes the resource (opening it when needed); it must not be closed now. */
  function Acquire(l: Lease): Lease {
    Lease(true, l.users + 1, LongMax)
  }

  /** A user lets go; when no user is left the deadline becomes now + keepAlive. */
  function Release(l: Lease, now: int): Lease {
    var users := l.users - 1;
    Lease(l.open, users, if users <= 0 then WrapLong(now + KeepAliveMillis) else l.until)
  }

  /** Immediate close: no resource and no users; the deadline is left as it was. */
  function Expire(l: Lease): Lease {
    Lease(false, 0, l.until)
  }

  /** The chore's step for one resource: past the deadline, close it and reset the deadline. */
  function Sweep(l: Lease, now: int): Lease {
    if now > l.until then Expire(l).(until := LongMax) else l
  }

  /** A resource somebody holds is never due for closing. */
  predicate Healthy(l: Lease) {
    l.users > 0 ==> l.until == LongMax
  }

  /** Every step of the protocol keeps a healthy resource healthy. */
  lemma StepsKeepHealthy(l: Lease, now: int)
    requires Healthy(l)
    ensures Healthy(Acquire(l)) && Healthy(Release(l, now))
    ensures Healthy(Expire(l)) && Healthy(Sweep(l, now))
  {
  }

  /** The chore leaves a resource in use untouched, whatever the (long-valued) clock says. */
  lemma HeldNotSwept(l: Lease, now: int)
    requires Healthy(l) && l.users > 0 && IsLong(now)
    ensures Sweep(l, now) == l
  {
  }

  /**
   * The idle window: once the last user releases at time `now`, a chore at
   * time t closes the resource exactly when t is past now + keepAlive
   * (when that sum does not overflow a long).
   */
  lemma IdleWindow(l: Lease, now: int, t: int)
    requires l.users <= 1 && IsLong(now + KeepAliveMillis)
    ensures Sweep(Release(l, now), t).open <==> Release(l, now).open && t <= now + KeepAliveMillis
    ensures t > now + KeepAliveMillis ==> Sweep(Release(l, now), t) == Lease(false, 0, LongMax)
    ensures t <= now + KeepAliveMillis ==> Sweep(Release(l, now), t) == Release(l, now)
  {
  }

  /** Taking the resource again before the chore runs cancels the pending close. */
  lemma AcquireCancelsClose(l: Lease, now: int, t: int)
    requires IsLong(t)
    ensures Sweep(Acquire(Release(l, now)), t) == Acquire(Release(l, now))
  {
  }

  /** A second chore at the same instant does nothing more. */
  lemma SweepIdempotent(l: Lease, now: int)
    requires IsLong(now)
    ensures Sweep(Sweep(l, now), now) == Sweep(l, now)
  {
  }
}
