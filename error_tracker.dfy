/**
 * ServerErrorTracker: per-server error counts that pace the retries of a
 * batch when retries are bounded by time rather than by count.  The clock
 * is a parameter (now); the pause schedule of the client (getPauseTime)
 * is a parameter as well, a function of the base pause and the number of
 * retries so far.
 */
module ErrorTracker {
  import opened Locations

  /** The pause schedule: getPauseTime(basePause, retries). */
  type PauseSchedule = (int, nat) -> nat

  function Min(a: int, b: int): int { if a <= b then a else b }
  function Max(a: int, b: int): int { if a >= b then a else b }

  /** The error record of one server: when it last failed and how often it was retried. */
  datatype ServerErrors = ServerErrors(lastErrorTime: int, retries: nat)

  type ErrorsByServer = map<ServerName, ServerErrors>

  /**
   * reportServerError as a function: a server's first error opens a record
   * with no retries; each later one bumps the count and the error time.
   * Other servers' records are left alone.
   */
  function Report(errors: ErrorsByServer, server: ServerName, now: int): (r: ErrorsByServer)
    ensures r.Keys == errors.Keys + {server}
    ensures r[server].lastErrorTime == now
    ensures r[server].retries == if server in errors then errors[server].retries + 1 else 0
    ensures forall sn :: sn in errors && sn != server ==> r[sn] == errors[sn]
  {
    if server in errors then errors[server := ServerErrors(now, errors[server].retries + 1)]
    else errors[server := ServerErrors(now, 0)]
  }

  /** A run of reports of the same server, at the given times. */
  function ReportAll(errors: ErrorsByServer, server: ServerName, times: seq<int>): ErrorsByServer
    decreases |times|
  {
    if times == [] then errors else ReportAll(Report(errors, server, times[0]), server, times[1..])
  }

  /**
   * After k reports of a server that had no record, the record counts k - 1
   * retries and carries the time of the last report; others are untouched.
   */
  lemma {:induction false} ReportsCountRetries(errors: ErrorsByServer, server: ServerName, times: seq<int>)
    requires times != []
    ensures ReportAll(errors, server, times).Keys == errors.Keys + {server}
    ensures ReportAll(errors, server, times)[server].lastErrorTime == times[|times| - 1]
    ensures ReportAll(errors, server, times)[server].retries ==
      (if server in errors then errors[server].retries + |times| else |times| - 1)
    ensures forall sn :: sn in errors && sn != server ==> ReportAll(errors, server, times)[sn] == errors[sn]
    decreases |times|
  {
    var e1 := Report(errors, server, times[0]);
    if |times| > 1 {
      ReportsCountRetries(e1, server, times[1..]);
      assert times[1..][|times[1..]| - 1] == times[|times| - 1];
    }
  }

  /**
   * calculateBackoffTime: nothing to wait for a server without errors;
   * otherwise the scheduled pause for its retry count, less the time since
   * its last error, cut short where it would overshoot the deadline.
   *
   * Put otherwise: the next attempt happens at the earlier of "the pause has
   * elapsed since the last error" and "the deadline", and never in the past.
   */
  function Backoff(errors: ErrorsByServer, canRetryUntil: int, server: ServerName,
                   basePause: int, now: int, pauseTime: PauseSchedule): (r: int)
    ensures r >= 0
    ensures server !in errors ==> r == 0
    ensures server in errors ==> r <= pauseTime(basePause, errors[server].retries)
    ensures r > 0 ==> now + r <= canRetryUntil
    ensures server in errors ==>
      var p, last := pauseTime(basePause, errors[server].retries), errors[server].lastErrorTime;
      var ready := if now - last > 0 then last + p else now + p;
      now + r == Min(Max(now, ready), Max(now, canRetryUntil))
  {
    if server !in errors then 0
    else
      var result := pauseTime(basePause, errors[server].retries);
      var timeSinceLastError := now - errors[server].lastErrorTime;
      var adjusted := if timeSinceLastError > 0 then Max(0, result - timeSinceLastError) else result;
      if adjusted > 0 && now + adjusted > canRetryUntil then Max(0, canRetryUntil - now)
      else adjusted
  }

  /** The value a tracker holds: its deadline and its error records. */
  datatype TrackerState = TrackerState(canRetryUntil: int, errorsByServer: ErrorsByServer)

  /** canRetryMore: retrying stays allowed strictly before the deadline. */
  predicate CanRetryMore(t: TrackerState, now: int) {
    now < t.canRetryUntil
  }

  /** The sum of the first n scheduled pauses. */
  function SumPauses(pause: int, n: nat, pauseTime: PauseSchedule): nat
    decreases n
  {
    if n == 0 then 0 else SumPauses(pause, n - 1, pauseTime) + pauseTime(pause, n - 1)
  }

  /** The time budget covers each of the scheduled pauses, and grows with the number of tries. */
  lemma {:induction false} SumPausesCoversEach(pause: int, n: nat, pauseTime: PauseSchedule, i: nat)
    requires i < n
    ensures pauseTime(pause, i) <= SumPauses(pause, n, pauseTime)
    ensures SumPauses(pause, i, pauseTime) <= SumPauses(pause, n, pauseTime)
    decreases n
  {
    if i < n - 1 {
      SumPausesCoversEach(pause, n - 1, pauseTime, i);
    }
  }

  /**
   * The tracker timeout computed by the connection's constructor: with the
   * tracker in use, the total of the pauses a count-bounded retry would
   * have slept; zero otherwise.
   */
  method ServerTrackerTimeout(useServerTrackerForRetries: bool, pause: int, numTries: int, pauseTime: PauseSchedule)
    returns (timeout: nat)
    ensures timeout == if useServerTrackerForRetries && numTries > 0 then SumPauses(pause, numTries, pauseTime) else 0
  {
    timeout := 0;
    if useServerTrackerForRetries {
      var i := 0;
      while i < numTries
        invariant if numTries > 0 then 0 <= i <= numTries else i == 0
        invariant timeout == SumPauses(pause, i, pauseTime)
        decreases numTries - i
      {
        timeout := timeout + pauseTime(pause, i);
        i := i + 1;
      }
    }
  }

  /** The tracker object a batch creates on its first retry. */
  class ServerErrorTracker {
    const canRetryUntil: int
    var errorsByServer: ErrorsByServer

    function State(): TrackerState
      reads this
    {
      TrackerState(canRetryUntil, errorsByServer)
    }

    /** The deadline is fixed at creation: now plus the timeout. */
    constructor (timeout: int, now: int)
      ensures canRetryUntil == now + timeout
      ensures errorsByServer == map[]
    {
      canRetryUntil := now + timeout;
      errorsByServer := map[];
    }

    /** reportServerError */
    method ReportServerError(server: ServerName, now: int)
      modifies this
      ensures errorsByServer == Report(old(errorsByServer), server, now)
    {
      if server in errorsByServer {
        var errors := errorsByServer[server];
        errorsByServer := errorsByServer[server := ServerErrors(now, errors.retries + 1)];
      } else {
        errorsByServer := errorsByServer[server := ServerErrors(now, 0)];
      }
    }

    /** calculateBackoffTime */
    method CalculateBackoffTime(server: ServerName, basePause: int, now: int, pauseTime: PauseSchedule)
      returns (result: int)
      ensures result == Backoff(errorsByServer, canRetryUntil, server, basePause, now, pauseTime)
    {
      result := 0;
      if server in errorsByServer {
        var errorStats := errorsByServer[server];
        result := pauseTime(basePause, errorStats.retries);
        var timeSinceLastError := now - errorStats.lastErrorTime;
        if timeSinceLastError > 0 {
          result := Max(0, result - timeSinceLastError);
        }
        if result > 0 && now + result > canRetryUntil {
          result := Max(0, canRetryUntil - now);
        }
      }
    }
  }
}
