/**
 * The batch processor behind processBatchCallback: the actions of a batch
 * are grouped per region server and sent; each answer is analysed, and the
 * failed actions are sent again until they succeed, fail for good or the
 * retry budget runs out (a number of tries, or a deadline kept by a
 * ServerErrorTracker).
 *
 * The thread pool, the futures and the sleeping before a retry are not
 * modelled: which task completes next, what each server answers, where a
 * row is located and what the clock reads are the oracles of an Env.
 */
module BatchProcess {
  import opened Wrappers
  import opened Bytes
  import opened Locations
  import LocationCache
  import opened ErrorTracker

  /** Why a single action failed, as far as the processor distinguishes. */
  datatype Failure =
    | DoNotRetry                                   // DoNotRetryIOException
    | RegionMoved(server: ServerName, seqNum: int) // RegionMovedException
    | RegionOpening                                // RegionOpeningException
    | OtherFailure                                 // any other Throwable
    | NoResult                                     // a null result

  /** What a server answered for one action. */
  datatype Reply = Success(value: int) | Failed(failure: Failure)

  /** One error of the batch: the action, its failure (None when the whole request failed) and the server. */
  datatype BatchError = BatchError(index: nat, failure: Option<Failure>, location: Location)

  /** The actions sent together to one server, with the pause that precedes them. */
  datatype Task = Task(actions: seq<nat>, location: Location, backoff: int)

  /** The connection settings the processor reads. */
  datatype Config = Config(
    numTries: int,
    pause: int,
    useServerTracker: bool,
    serverTrackerTimeout: int,
    pauseTime: PauseSchedule)

  /**
   * The environment: locate(k, i) answers where the k-th submit finds row i
   * (None when it finds nothing or fails); pick(n) chooses which task of
   * the n-th completion is done; taskFails(n) says whether that request
   * failed as a whole, and reply(n, i) is the answer for action i; clock(t)
   * is the t-th reading of the clock.
   */
  datatype Env = Env(
    locate: (nat, nat) -> Option<Location>,
    pick: nat -> nat,
    taskFails: nat -> bool,
    reply: (nat, nat) -> Reply,
    clock: nat -> int)

  /** The end of a batch. */
  datatype BatchOutcome =
    | Done                                      // returned normally
    | IllegalArgument                           // results and rows differ in length
    | NoLocation                                // a submit found no location for a row
    | RetriesExhausted(errors: seq<BatchError>) // RetriesExhaustedWithDetailsException

  /** The update of the location cache that a failure asks for. */
  function CauseOf(failure: Option<Failure>): LocationCache.Cause {
    match failure
    case Some(RegionMoved(sn, seqNum)) => LocationCache.Moved(sn, seqNum)
    case Some(RegionOpening) => LocationCache.Opening
    case _ => LocationCache.OtherCause
  }

  // ---------------------------------------------------------------------
  // Multisets of actions

  /** The actions of a list of tasks, counted with multiplicity. */
  function InFlight(tasks: seq<Task>): multiset<nat>
    decreases |tasks|
  {
    if tasks == [] then multiset{} else InFlight(tasks[..|tasks| - 1]) + multiset(tasks[|tasks| - 1].actions)
  }

  lemma {:induction false} InFlightAppend(a: seq<Task>, b: seq<Task>)
    ensures InFlight(a + b) == InFlight(a) + InFlight(b)
    decreases |b|
  {
    if b == [] {
      assert a + b == a;
    } else {
      assert (a + b)[..|a + b| - 1] == a + b[..|b| - 1];
      InFlightAppend(a, b[..|b| - 1]);
    }
  }

  lemma InFlightSingle(t: Task)
    ensures InFlight([t]) == multiset(t.actions)
  {
    assert [t][..0] == [];
  }

  /** Removing the task at index j takes its actions out of flight. */
  lemma InFlightMiddle(pre: seq<Task>, x: Task, post: seq<Task>)
    ensures InFlight(pre + [x] + post) == InFlight(pre + post) + multiset(x.actions)
  {
    InFlightAppend(pre + [x], post);
    InFlightAppend(pre, [x]);
    InFlightSingle(x);
    InFlightAppend(pre, post);
  }

  lemma SeqSplit<T>(s: seq<T>, j: nat)
    requires j < |s|
    ensures s == s[..j] + [s[j]] + s[j + 1..]
  {
  }

  lemma InFlightRemove(tasks: seq<Task>, j: nat)
    requires j < |tasks|
    ensures InFlight(tasks) == InFlight(tasks[..j] + tasks[j + 1..]) + multiset(tasks[j].actions)
  {
    InFlightMiddle(tasks[..j], tasks[j], tasks[j + 1..]);
    SeqSplit(tasks, j);
  }

  /** Replacing one task by another changes the multiset by exactly their difference. */
  lemma {:induction false} InFlightUpdate(tasks: seq<Task>, k: nat, t: Task)
    requires k < |tasks|
    ensures InFlight(tasks[k := t]) + multiset(tasks[k].actions) == InFlight(tasks) + multiset(t.actions)
  {
    var u := tasks[k := t];
    InFlightRemove(tasks, k);
    InFlightRemove(u, k);
    assert u[..k] + u[k + 1..] == tasks[..k] + tasks[k + 1..];
  }

  /** The actions whose row is not null: the ones a submit sends. */
  function NonNull(rows: seq<Option<Bytes>>, actions: seq<nat>): (r: seq<nat>)
    ensures forall x :: x in r <==> x in actions && x < |rows| && rows[x].Some?
    ensures |r| <= |actions|
    decreases |actions|
  {
    if actions == [] then []
    else
      var rest := NonNull(rows, actions[1..]);
      assert forall x :: x in actions <==> x == actions[0] || x in actions[1..];
      if actions[0] < |rows| && rows[actions[0]].Some? then [actions[0]] + rest else rest
  }

  lemma {:induction false} NonNullAppend(rows: seq<Option<Bytes>>, a: seq<nat>, x: nat)
    ensures NonNull(rows, a + [x]) == NonNull(rows, a) + (if x < |rows| && rows[x].Some? then [x] else [])
    decreases |a|
  {
    if a == [] {
      assert a + [x] == [x];
      assert [x][1..] == [];
    } else {
      assert (a + [x])[1..] == a[1..] + [x];
      NonNullAppend(rows, a[1..], x);
    }
  }

  // ---------------------------------------------------------------------
  // Grouping per server

  /**
   * What submit must produce from a list of actions: non-empty tasks, one
   * per server, whose location is where the first of their actions was
   * found, every action in the task of the server it was found on, and
   * together exactly the actions with a row.
   */
  ghost predicate GroupedByServer(tasks: seq<Task>, rows: seq<Option<Bytes>>, actions: seq<nat>,
                                  locate: (nat, nat) -> Option<Location>, k: nat)
  {
    && InFlight(tasks) == multiset(NonNull(rows, actions))
    && Anchored(tasks, locate, k)
    && Homed(tasks, locate, k)
    && ServersDistinct(tasks)
  }

  /** Every task is non-empty and sits where its first action was found. */
  ghost predicate Anchored(tasks: seq<Task>, locate: (nat, nat) -> Option<Location>, k: nat) {
    forall j :: 0 <= j < |tasks| ==>
      tasks[j].actions != [] && locate(k, tasks[j].actions[0]) == Some(tasks[j].location)
  }

  /** Every action of a task was found on that task's server. */
  ghost predicate Homed(tasks: seq<Task>, locate: (nat, nat) -> Option<Location>, k: nat) {
    forall j, a :: 0 <= j < |tasks| && a in tasks[j].actions ==>
      locate(k, a).Some? && locate(k, a).value.server == tasks[j].location.server
  }

  /** No two tasks go to the same server. */
  predicate ServersDistinct(tasks: seq<Task>) {
    forall j1, j2 :: 0 <= j1 < j2 < |tasks| ==> tasks[j1].location.server != tasks[j2].location.server
  }

  /** Every row that a submit must send was located. */
  ghost predicate AllLocated(rows: seq<Option<Bytes>>, actions: seq<nat>, locate: (nat, nat) -> Option<Location>, k: nat) {
    forall a :: a in actions && a < |rows| && rows[a].Some? ==> locate(k, a).Some?
  }

  /** Every row is located, at every submit. */
  ghost predicate Locatable(rows: seq<Option<Bytes>>, locate: (nat, nat) -> Option<Location>) {
    forall k: nat, a: nat :: a < |rows| && rows[a].Some? ==> locate(k, a).Some?
  }

  /** A submit that could not locate every row it was given is a submit that missed a row. */
  lemma Missed(rows: seq<Option<Bytes>>, actions: seq<nat>, locate: (nat, nat) -> Option<Location>, k: nat)
    requires !AllLocated(rows, actions, locate, k)
    ensures LastSubmitMissed(rows, locate, k + 1)
    ensures !Locatable(rows, locate)
  {
    var a :| a in actions && a < |rows| && rows[a].Some? && locate(k, a).None?;
  }

  /** The last of `submits` submits met a row it could not locate. */
  ghost predicate LastSubmitMissed(rows: seq<Option<Bytes>>, locate: (nat, nat) -> Option<Location>, submits: nat) {
    submits > 0 && exists a: nat :: a < |rows| && rows[a].Some? && locate(submits - 1, a).None?
  }

  lemma Cancel(x: multiset<nat>, m: multiset<nat>, y: multiset<nat>, m1: multiset<nat>,
               n: multiset<nat>, n1: multiset<nat>, a: nat)
    requires x + m == y + m1 && m1 == m + multiset{a} && y == n && n1 == n + multiset{a}
    ensures x == n1
  {
    forall z ensures x[z] == n1[z] {
      assert (x + m)[z] == (y + m1)[z];
    }
  }

  /** Task j with an action added: the grouping of one more action is kept. */
  lemma AddToGroup(tasks: seq<Task>, rows: seq<Option<Bytes>>, actions: seq<nat>,
                   locate: (nat, nat) -> Option<Location>, k: nat, j: nat, a: nat)
    requires GroupedByServer(tasks, rows, actions, locate, k)
    requires j < |tasks| && a < |rows| && rows[a].Some?
    requires locate(k, a).Some? && locate(k, a).value.server == tasks[j].location.server
    ensures GroupedByServer(tasks[j := Task(tasks[j].actions + [a], tasks[j].location, 0)], rows, actions + [a], locate, k)
  {
    var t := Task(tasks[j].actions + [a], tasks[j].location, 0);
    var u := tasks[j := t];
    AddToGroupInFlight(tasks, rows, actions, j, a);
    assert Anchored(u, locate, k) by {
      assert t.actions[0] == tasks[j].actions[0];
    }
    assert Homed(u, locate, k) by {
      forall i, b | 0 <= i < |u| && b in u[i].actions
        ensures locate(k, b).Some? && locate(k, b).value.server == u[i].location.server
      {
        if i == j && b !in tasks[j].actions {
          assert b == a;
        }
      }
    }
    assert ServersDistinct(u) by {
      assert forall i :: 0 <= i < |u| ==> u[i].location == tasks[i].location;
    }
  }

  lemma AddToGroupInFlight(tasks: seq<Task>, rows: seq<Option<Bytes>>, actions: seq<nat>, j: nat, a: nat)
    requires InFlight(tasks) == multiset(NonNull(rows, actions))
    requires j < |tasks| && a < |rows| && rows[a].Some?
    ensures InFlight(tasks[j := Task(tasks[j].actions + [a], tasks[j].location, 0)]) == multiset(NonNull(rows, actions + [a]))
  {
    var t := Task(tasks[j].actions + [a], tasks[j].location, 0);
    var u := tasks[j := t];
    InFlightUpdate(tasks, j, t);
    NonNullAppend(rows, actions, a);
    assert multiset(t.actions) == multiset(tasks[j].actions) + multiset{a};
    var n1, n2 := NonNull(rows, actions), NonNull(rows, actions + [a]);
    assert n2 == n1 + [a];
    assert multiset(n2) == multiset(n1) + multiset{a};
    Cancel(InFlight(u), multiset(tasks[j].actions), InFlight(tasks), multiset(t.actions), multiset(n1), multiset(n2), a);
  }

  /** A new task for a server not seen before. */
  lemma NewGroup(tasks: seq<Task>, rows: seq<Option<Bytes>>, actions: seq<nat>,
                 locate: (nat, nat) -> Option<Location>, k: nat, a: nat, loc: Location)
    requires GroupedByServer(tasks, rows, actions, locate, k)
    requires a < |rows| && rows[a].Some? && locate(k, a) == Some(loc)
    requires forall j :: 0 <= j < |tasks| ==> tasks[j].location.server != loc.server
    ensures GroupedByServer(tasks + [Task([a], loc, 0)], rows, actions + [a], locate, k)
  {
    var t := Task([a], loc, 0);
    var u := tasks + [t];
    NewGroupInFlight(tasks, rows, actions, a, loc);
    AppendAnchored(tasks, t, locate, k);
    AppendHomed(tasks, t, locate, k);
    AppendDistinct(tasks, t);
  }

  lemma AppendAnchored(tasks: seq<Task>, t: Task, locate: (nat, nat) -> Option<Location>, k: nat)
    requires Anchored(tasks, locate, k)
    requires t.actions != [] && locate(k, t.actions[0]) == Some(t.location)
    ensures Anchored(tasks + [t], locate, k)
  {
    assert forall i :: 0 <= i < |tasks| ==> (tasks + [t])[i] == tasks[i];
  }

  lemma AppendHomed(tasks: seq<Task>, t: Task, locate: (nat, nat) -> Option<Location>, k: nat)
    requires Homed(tasks, locate, k)
    requires forall b :: b in t.actions ==> locate(k, b).Some? && locate(k, b).value.server == t.location.server
    ensures Homed(tasks + [t], locate, k)
  {
    assert forall i :: 0 <= i < |tasks| ==> (tasks + [t])[i] == tasks[i];
  }

  lemma AppendDistinct(tasks: seq<Task>, t: Task)
    requires ServersDistinct(tasks)
    requires forall j :: 0 <= j < |tasks| ==> tasks[j].location.server != t.location.server
    ensures ServersDistinct(tasks + [t])
  {
    assert forall i :: 0 <= i < |tasks| ==> (tasks + [t])[i] == tasks[i];
  }

  lemma NewGroupInFlight(tasks: seq<Task>, rows: seq<Option<Bytes>>, actions: seq<nat>, a: nat, loc: Location)
    requires InFlight(tasks) == multiset(NonNull(rows, actions))
    requires a < |rows| && rows[a].Some?
    ensures InFlight(tasks + [Task([a], loc, 0)]) == multiset(NonNull(rows, actions + [a]))
  {
    var t := Task([a], loc, 0);
    InFlightAppend(tasks, [t]);
    InFlightSingle(t);
    NonNullAppend(rows, actions, a);
    var n1, n2 := NonNull(rows, actions), NonNull(rows, actions + [a]);
    assert n2 == n1 + [a];
    assert multiset(n2) == multiset(n1) + multiset{a};
  }

  lemma SkipNull(tasks: seq<Task>, rows: seq<Option<Bytes>>, actions: seq<nat>,
                 locate: (nat, nat) -> Option<Location>, k: nat, a: nat)
    requires GroupedByServer(tasks, rows, actions, locate, k)
    requires !(a < |rows| && rows[a].Some?)
    ensures GroupedByServer(tasks, rows, actions + [a], locate, k)
  {
    NonNullAppend(rows, actions, a);
  }

  /** Tasks that differ only in their pauses group the same way. */
  lemma RegroupSame(tasks: seq<Task>, other: seq<Task>, rows: seq<Option<Bytes>>, actions: seq<nat>,
                    locate: (nat, nat) -> Option<Location>, k: nat)
    requires GroupedByServer(tasks, rows, actions, locate, k)
    requires |other| == |tasks|
    requires forall j :: 0 <= j < |tasks| ==> other[j].actions == tasks[j].actions && other[j].location == tasks[j].location
    ensures GroupedByServer(other, rows, actions, locate, k)
  {
    InFlightSameActions(tasks, other);
  }

  lemma {:induction false} InFlightSameActions(a: seq<Task>, b: seq<Task>)
    requires |a| == |b|
    requires forall j :: 0 <= j < |a| ==> a[j].actions == b[j].actions
    ensures InFlight(a) == InFlight(b)
    decreases |a|
  {
    if a != [] {
      InFlightSameActions(a[..|a| - 1], b[..|b| - 1]);
    }
  }

  /** submit sends each action at most once: dropping null rows keeps a list repetition-free. */
  lemma {:induction false} NonNullSubmultiset(rows: seq<Option<Bytes>>, actions: seq<nat>)
    ensures multiset(NonNull(rows, actions)) <= multiset(actions)
    decreases |actions|
  {
    if actions != [] {
      NonNullSubmultiset(rows, actions[1..]);
      assert actions == [actions[0]] + actions[1..];
    }
  }

  lemma {:induction false} RangeNoRepeats(k: nat)
    ensures NoRepeats(multiset(Range(k)))
    decreases k
  {
    if k > 0 {
      RangeNoRepeats(k - 1);
      assert Range(k) == Range(k - 1) + [k - 1];
      assert k - 1 !in Range(k - 1);
    }
  }

  /** The actions of a batch: every index whose row is not null, each once. */
  lemma SentActions(rows: seq<Option<Bytes>>)
    ensures NoRepeats(multiset(NonNull(rows, Range(|rows|))))
    ensures forall x: nat :: x in multiset(NonNull(rows, Range(|rows|))) <==> x < |rows| && rows[x].Some?
  {
    RangeNoRepeats(|rows|);
    NonNullSubmultiset(rows, Range(|rows|));
    forall x: nat | x < |rows| && rows[x].Some?
      ensures x in NonNull(rows, Range(|rows|))
    {
      assert Range(|rows|)[x] == x;
    }
  }

  /** A list whose every action has a row is sent whole by submit. */
  lemma {:induction false} NonNullKeepsAll(rows: seq<Option<Bytes>>, actions: seq<nat>)
    requires forall a :: a in actions ==> a < |rows| && rows[a].Some?
    ensures NonNull(rows, actions) == actions
    decreases |actions|
  {
    if actions != [] {
      assert forall a :: a in actions[1..] ==> a in actions;
      NonNullKeepsAll(rows, actions[1..]);
      assert actions[0] in actions;
      calc {
        NonNull(rows, actions);
        [actions[0]] + NonNull(rows, actions[1..]);
        [actions[0]] + actions[1..];
        actions;
      }
    }
  }

  /** The indices 0 .. k-1, in order. */
  function Range(k: nat): (r: seq<nat>)
    ensures |r| == k && forall i :: 0 <= i < k ==> r[i] == i
  {
    seq(k, i => i)
  }

  function IndexOfServer(tasks: seq<Task>, sn: ServerName): (j: nat)
    ensures j <= |tasks|
    ensures j < |tasks| ==> tasks[j].location.server == sn
    ensures j == |tasks| ==> forall i :: 0 <= i < |tasks| ==> tasks[i].location.server != sn
    decreases |tasks|
  {
    if tasks == [] then 0
    else if tasks[|tasks| - 1].location.server == sn then |tasks| - 1
    else
      var j := IndexOfServer(tasks[..|tasks| - 1], sn);
      if j == |tasks| - 1 then |tasks| else j
  }

  // ---------------------------------------------------------------------
  // Analysing an answer

  /** What becomes of an action once its request completed. */
  datatype Fate = Succeeds | Errs | Retries

  /**
   * The classification of processBatchCallback: when the whole request
   * failed every action is retried, or recorded as an error once retries
   * are over; otherwise a success is kept, and a failure is recorded for
   * good when it is a DoNotRetryIOException or retries are over, and
   * retried otherwise.
   */
  function FateOf(taskFailed: bool, reply: Reply, noRetry: bool): (f: Fate)
    ensures f == Succeeds <==> !taskFailed && reply.Success?
    ensures f == Retries <==> !noRetry && (taskFailed || (reply.Failed? && reply.failure != DoNotRetry))
    ensures f == Errs <==> (taskFailed || reply.Failed?) && (noRetry || (!taskFailed && reply.failure == DoNotRetry))
  {
    if taskFailed then (if noRetry then Errs else Retries)
    else match reply
      case Success(_) => Succeeds
      case Failed(failure) => if failure == DoNotRetry || noRetry then Errs else Retries
  }

  function FateIn(env: Env, n: nat, noRetry: bool, a: nat): Fate {
    FateOf(env.taskFails(n), env.reply(n, a), noRetry)
  }

  /** The failure an action of the n-th completed request reports: None when the request failed whole. */
  function FailureAt(env: Env, n: nat, a: nat): Option<Failure> {
    if env.taskFails(n) then None
    else match env.reply(n, a)
      case Failed(failure) => Some(failure)
      case Success(_) => None
  }

  /** The actions with the given fate, in order. */
  function WithFate(actions: seq<nat>, env: Env, n: nat, noRetry: bool, f: Fate): (r: seq<nat>)
    ensures forall x :: x in r ==> x in actions && FateIn(env, n, noRetry, x) == f
    decreases |actions|
  {
    if actions == [] then []
    else
      var a := actions[|actions| - 1];
      WithFate(actions[..|actions| - 1], env, n, noRetry, f) + (if FateIn(env, n, noRetry, a) == f then [a] else [])
  }

  /** The errors a completed request adds: one per action whose fate is Errs. */
  function ErrorsOf(actions: seq<nat>, env: Env, n: nat, noRetry: bool, location: Location): seq<BatchError>
    decreases |actions|
  {
    if actions == [] then []
    else
      var a := actions[|actions| - 1];
      ErrorsOf(actions[..|actions| - 1], env, n, noRetry, location)
      + (if FateIn(env, n, noRetry, a) == Errs then [BatchError(a, FailureAt(env, n, a), location)] else [])
  }

  /** The actions the errors of a batch are about. */
  function ErrIdx(errors: seq<BatchError>): (r: seq<nat>)
    ensures |r| == |errors| && forall i :: 0 <= i < |errors| ==> r[i] == errors[i].index
  {
    seq(|errors|, i requires 0 <= i < |errors| => errors[i].index)
  }

  lemma {:induction false} ErrorsOfIndices(actions: seq<nat>, env: Env, n: nat, noRetry: bool, location: Location)
    ensures ErrIdx(ErrorsOf(actions, env, n, noRetry, location)) == WithFate(actions, env, n, noRetry, Errs)
    ensures forall e :: e in ErrorsOf(actions, env, n, noRetry, location) ==>
      e.location == location && e.failure == FailureAt(env, n, e.index)
    decreases |actions|
  {
    if actions != [] {
      ErrorsOfIndices(actions[..|actions| - 1], env, n, noRetry, location);
    }
  }

  /** Every action meets exactly one fate. */
  lemma WithFateSnoc(init: seq<nat>, a: nat, env: Env, n: nat, noRetry: bool, f: Fate)
    ensures WithFate(init + [a], env, n, noRetry, f) ==
      WithFate(init, env, n, noRetry, f) + (if FateIn(env, n, noRetry, a) == f then [a] else [])
  {
    assert (init + [a])[..|init|] == init;
  }

  lemma AddOne(m0: multiset<nat>, s0: multiset<nat>, e0: multiset<nat>, r0: multiset<nat>, a: nat,
               m1: multiset<nat>, s1: multiset<nat>, e1: multiset<nat>, r1: multiset<nat>)
    requires m0 == s0 + e0 + r0 && m1 == m0 + multiset{a}
    requires (s1 == s0 + multiset{a} && e1 == e0 && r1 == r0)
          || (s1 == s0 && e1 == e0 + multiset{a} && r1 == r0)
          || (s1 == s0 && e1 == e0 && r1 == r0 + multiset{a})
    ensures m1 == s1 + e1 + r1
  {
  }

  lemma {:induction false} FatesPartition(actions: seq<nat>, env: Env, n: nat, noRetry: bool)
    ensures multiset(actions) ==
      multiset(WithFate(actions, env, n, noRetry, Succeeds))
      + multiset(WithFate(actions, env, n, noRetry, Errs))
      + multiset(WithFate(actions, env, n, noRetry, Retries))
    decreases |actions|
  {
    if actions != [] {
      var init, a := actions[..|actions| - 1], actions[|actions| - 1];
      FatesPartition(init, env, n, noRetry);
      assert actions == init + [a];
      WithFateSnoc(init, a, env, n, noRetry, Succeeds);
      WithFateSnoc(init, a, env, n, noRetry, Errs);
      WithFateSnoc(init, a, env, n, noRetry, Retries);
      AddOne(multiset(init),
        multiset(WithFate(init, env, n, noRetry, Succeeds)),
        multiset(WithFate(init, env, n, noRetry, Errs)),
        multiset(WithFate(init, env, n, noRetry, Retries)), a,
        multiset(actions),
        multiset(WithFate(actions, env, n, noRetry, Succeeds)),
        multiset(WithFate(actions, env, n, noRetry, Errs)),
        multiset(WithFate(actions, env, n, noRetry, Retries)));
    }
  }

  /** Once retries are over nothing is retried. */
  lemma {:induction false} NoRetryNoReplay(actions: seq<nat>, env: Env, n: nat)
    ensures WithFate(actions, env, n, true, Retries) == []
    decreases |actions|
  {
    if actions != [] {
      NoRetryNoReplay(actions[..|actions| - 1], env, n);
    }
  }

  /** Every action has a row: what a task holds. */
  predicate AllSendable(rows: seq<Option<Bytes>>, actions: seq<nat>) {
    forall i :: 0 <= i < |actions| ==> actions[i] < |rows| && rows[actions[i]].Some?
  }

  /**
   * The cache updates of a completed request: every action that failed,
   * alone or with the whole request, makes the cache react to its failure
   * (a whole failure counts as no particular cause).
   */
  function CacheAfter(s: LocationCache.CacheState, table: TableName, rows: seq<Option<Bytes>>,
                      actions: seq<nat>, env: Env, n: nat, location: Location): (r: LocationCache.CacheState)
    requires AllSendable(rows, actions)
    ensures LocationCache.Consistent(s) ==> LocationCache.Consistent(r)
    ensures LocationCache.Consistent(s) ==> OtherTablesKept(s, r, table)
    decreases |actions|
  {
    if actions == [] then s
    else
      var a, init := actions[|actions| - 1], actions[..|actions| - 1];
      CacheStep(CacheAfter(s, table, rows, init, env, n, location), table, rows, env, n, a, location)
  }

  /** The maps of all tables but table are the same in s and r. */
  ghost predicate OtherTablesKept(s: LocationCache.CacheState, r: LocationCache.CacheState, table: TableName) {
    forall t :: t != table ==> LocationCache.TableOf(r.tables, t) == LocationCache.TableOf(s.tables, t)
  }

  /** Every task of a run holds actions with rows only. */
  predicate TasksSendableAll(rows: seq<Option<Bytes>>, tasks: seq<Task>) {
    forall k :: 0 <= k < |tasks| ==> AllSendable(rows, tasks[k].actions)
  }

  /**
   * The cache updates of a run of completed requests of one batch, in the
   * order they completed, the k-th of them being request number n0 + k.
   */
  function CacheAfterTasks(s: LocationCache.CacheState, table: TableName, rows: seq<Option<Bytes>>,
                           done: seq<Task>, env: Env, n0: nat): (r: LocationCache.CacheState)
    requires TasksSendableAll(rows, done)
    ensures LocationCache.Consistent(s) ==> LocationCache.Consistent(r)
    ensures LocationCache.Consistent(s) ==> OtherTablesKept(s, r, table)
    decreases |done|
  {
    if done == [] then s
    else
      var last := done[|done| - 1];
      CacheAfter(CacheAfterTasks(s, table, rows, done[..|done| - 1], env, n0), table, rows,
                 last.actions, env, n0 + |done| - 1, last.location)
  }

  /** The cache c is s after the updates of the requests done, the first of them request number n0. */
  ghost predicate CacheFollows(c: LocationCache.CacheState, s: LocationCache.CacheState, table: TableName,
                               rows: seq<Option<Bytes>>, done: seq<Task>, env: Env, n0: nat)
  {
    TasksSendableAll(rows, done) && c == CacheAfterTasks(s, table, rows, done, env, n0)
  }

  /** One more completed request, as CacheAfterTasks unfolds it. */
  lemma CacheAfterTasksSnoc(s: LocationCache.CacheState, table: TableName, rows: seq<Option<Bytes>>,
                            done: seq<Task>, task: Task, env: Env, n0: nat,
                            c: LocationCache.CacheState, c': LocationCache.CacheState)
    requires CacheFollows(c, s, table, rows, done, env, n0) && AllSendable(rows, task.actions)
    requires c' == CacheAfter(c, table, rows, task.actions, env, n0 + |done|, task.location)
    ensures CacheFollows(c', s, table, rows, done + [task], env, n0)
  {
    assert (done + [task])[..|done|] == done;
  }

  /** The cache's reaction to the answer for action a of request n. */
  function CacheStep(s: LocationCache.CacheState, table: TableName, rows: seq<Option<Bytes>>,
                     env: Env, n: nat, a: nat, location: Location): (r: LocationCache.CacheState)
    requires a < |rows| && rows[a].Some?
    ensures LocationCache.Consistent(s) ==> LocationCache.Consistent(r)
    ensures LocationCache.Consistent(s) ==> OtherTablesKept(s, r, table)
  {
    if env.taskFails(n) || env.reply(n, a).Failed? then
      LocationCache.UpdateLocations(s, table, rows[a].value, CauseOf(FailureAt(env, n, a)), location)
    else s
  }

  // ---------------------------------------------------------------------
  // Counting

  /** The retries left, summed over the actions, when each may be retried up to bound times. */
  function Slack(nb: seq<int>, bound: int): int
    decreases |nb|
  {
    if nb == [] then 0 else Slack(nb[..|nb| - 1], bound) + (bound - nb[|nb| - 1])
  }

  /** Using up a retry makes the slack smaller, and it never goes below zero. */
  lemma {:induction false} SlackDecreases(a: seq<int>, b: seq<int>, bound: int)
    requires |a| == |b|
    requires forall i :: 0 <= i < |a| ==> a[i] <= b[i] <= bound
    ensures 0 <= Slack(b, bound) <= Slack(a, bound)
    ensures (exists i :: 0 <= i < |a| && a[i] < b[i]) ==> Slack(b, bound) < Slack(a, bound)
    decreases |a|
  {
    if a != [] {
      var k := |a| - 1;
      SlackDecreases(a[..k], b[..k], bound);
      if exists i :: 0 <= i < |a| && a[i] < b[i] {
        var i :| 0 <= i < |a| && a[i] < b[i];
        if i < k {
          assert a[..k][i] < b[..k][i];
        }
      }
    }
  }

  /** The clock moves forward: a later reading is a larger time. */
  ghost predicate StrictlyIncreasing(clock: nat -> int) {
    forall t: nat, u: nat :: t < u ==> clock(t) < clock(u)
  }

  /** A multiset where no element appears twice: the actions of a batch. */
  ghost predicate NoRepeats(m: multiset<nat>) {
    forall x :: m[x] <= 1
  }

  lemma {:induction false} NoRepeatsPrefix(s: seq<nat>, j: nat)
    requires NoRepeats(multiset(s)) && j < |s|
    ensures s[j] !in s[..j]
  {
    assert s == s[..j] + [s[j]] + s[j + 1..];
    assert multiset(s) == multiset(s[..j]) + multiset{s[j]} + multiset(s[j + 1..]);
    assert multiset(s)[s[j]] == multiset(s[..j])[s[j]] + 1 + multiset(s[j + 1..])[s[j]];
    assert multiset(s[..j])[s[j]] == 0;
  }

  lemma {:induction false} NoRepeatsDistinct(s: seq<nat>)
    requires NoRepeats(multiset(s))
    ensures forall p, q :: 0 <= p < q < |s| ==> s[p] != s[q]
  {
    forall p, q | 0 <= p < q < |s|
      ensures s[p] != s[q]
    {
      NoRepeatsPrefix(s, q);
      assert s[p] in s[..q];
    }
  }

  /** The errors of a batch grow by the errors of each completed request. */
  lemma ErrIdxAppend(a: seq<BatchError>, b: seq<BatchError>)
    ensures ErrIdx(a + b) == ErrIdx(a) + ErrIdx(b)
  {
  }

  /** With no repetition in the whole, the parts of a partition are disjoint. */
  lemma Exclusive(x: nat, a: multiset<nat>, b: multiset<nat>, m: multiset<nat>)
    requires a + b == m && NoRepeats(m) && x in a
    ensures x !in b
  {
    assert m[x] == a[x] + b[x];
  }

  lemma Submultiset(a: multiset<nat>, b: multiset<nat>, m: multiset<nat>)
    requires a + b == m && NoRepeats(m)
    ensures NoRepeats(a) && forall x :: x in a ==> x in m
  {
    forall x ensures a[x] <= 1 {
      assert m[x] == a[x] + b[x];
    }
  }

  /** The bookkeeping of one pass of the main loop: every action keeps exactly one place. */
  lemma PassPartition(inflight: multiset<nat>, rest: multiset<nat>, task: multiset<nat>,
                      errs: multiset<nat>, succ: multiset<nat>, m: multiset<nat>,
                      mS: multiset<nat>, mE: multiset<nat>, mR: multiset<nat>, sent: multiset<nat>)
    requires inflight + errs + succ == m
    requires inflight == rest + task && task == mS + mE + mR && sent == mR
    ensures (rest + sent) + (errs + mE) + (succ + mS) == m
  {
  }

  /** One more located action: into the task of its server, or into a new task. */
  function AddAction(groups: seq<Task>, a: nat, loc: Location): seq<Task>
  {
    var j := IndexOfServer(groups, loc.server);
    if j < |groups| then groups[j := Task(groups[j].actions + [a], groups[j].location, 0)]
    else groups + [Task([a], loc, 0)]
  }

  /** Grouping one more action of a prefix keeps the grouping of the longer prefix. */
  lemma GroupStep(groups: seq<Task>, rows: seq<Option<Bytes>>, actions: seq<nat>,
                  locate: (nat, nat) -> Option<Location>, k: nat, i: nat)
    requires i < |actions|
    requires GroupedByServer(groups, rows, actions[..i], locate, k) && AllLocated(rows, actions[..i], locate, k)
    requires actions[i] < |rows| && rows[actions[i]].Some? ==> locate(k, actions[i]).Some?
    ensures var next := if actions[i] < |rows| && rows[actions[i]].Some?
                        then AddAction(groups, actions[i], locate(k, actions[i]).value) else groups;
            GroupedByServer(next, rows, actions[..i + 1], locate, k) && AllLocated(rows, actions[..i + 1], locate, k)
  {
    var a := actions[i];
    assert actions[..i + 1] == actions[..i] + [a];
    if a < |rows| && rows[a].Some? {
      var loc := locate(k, a).value;
      var j := IndexOfServer(groups, loc.server);
      if j < |groups| {
        AddToGroup(groups, rows, actions[..i], locate, k, j, a);
      } else {
        NewGroup(groups, rows, actions[..i], locate, k, a, loc);
      }
    } else {
      SkipNull(groups, rows, actions[..i], locate, k, a);
    }
  }

  /**
   * The grouping half of submit: locate every action with a row, in
   * order, and gather the actions per server (the first location found
   * for a server stands for the group).  It fails when a row is not found.
   */
  method GroupByServer(rows: seq<Option<Bytes>>, actions: seq<nat>, locate: (nat, nat) -> Option<Location>, k: nat)
    returns (ok: bool, groups: seq<Task>)
    ensures ok <==> AllLocated(rows, actions, locate, k)
    ensures ok ==> GroupedByServer(groups, rows, actions, locate, k)
  {
    groups := [];
    var i := 0;
    while i < |actions|
      invariant 0 <= i <= |actions|
      invariant GroupedByServer(groups, rows, actions[..i], locate, k)
      invariant AllLocated(rows, actions[..i], locate, k)
      decreases |actions| - i
    {
      var a := actions[i];
      if a < |rows| && rows[a].Some? {
        var loc := locate(k, a);
        if loc.None? {
          assert !AllLocated(rows, actions, locate, k) by {
            assert a in actions;
          }
          return false, groups;
        }
        GroupStep(groups, rows, actions, locate, k, i);
        groups := AddAction(groups, a, loc.value);
      } else {
        GroupStep(groups, rows, actions, locate, k, i);
      }
      i := i + 1;
    }
    assert actions[..i] == actions;
    return true, groups;
  }

  /**
   * The pause before a task is sent: none on a first submit; on a retry
   * the tracker's backoff for the server at time now, or without tracker
   * the scheduled pause for the retries made so far, counted from 0.
   */
  function RetryPause(cfg: Config, isRetry: bool, tracker: Option<TrackerState>, curNumRetries: int,
                      server: ServerName, now: int): int
    requires isRetry && cfg.useServerTracker ==> tracker.Some?
    requires isRetry && !cfg.useServerTracker ==> curNumRetries >= 1
  {
    if !isRetry then 0
    else if cfg.useServerTracker then
      Backoff(tracker.value.errorsByServer, tracker.value.canRetryUntil, server, cfg.pause, now, cfg.pauseTime)
    else cfg.pauseTime(cfg.pause, curNumRetries - 1)
  }

  // ---------------------------------------------------------------------
  // The analysis of answers, on values

  /** The fixed inputs of a batch. */
  datatype BatchInputs = BatchInputs(
    rows: seq<Option<Bytes>>,
    table: TableName,
    hasCallback: bool,
    cfg: Config,
    env: Env)

  /**
   * What addToReplay changes: the actions to replay, the retry count per
   * action and its maximum, the tracker and the clock readings made.
   */
  datatype RetryBooks = RetryBooks(
    toReplay: seq<nat>,
    nbRetries: seq<int>,
    curNumRetries: int,
    tracker: Option<TrackerState>,
    ticks: nat)

  /**
   * What the analysis of answers changes besides the location cache (see
   * CacheAfter): the above, the callback's log and the results.
   */
  datatype Books = Books(
    retry: RetryBooks,
    callbackLog: seq<nat>,
    results: seq<Option<Reply>>)

  /** The books with the errors recorded for good and the last answer of addToReplay. */
  datatype Analysis = Analysis(books: Books, errors: seq<BatchError>, lastRetry: bool)

  ghost predicate WellSized(p: BatchInputs, b: Books) {
    |b.results| == |p.rows| && |b.retry.nbRetries| == |p.rows|
  }

  /**
   * The tracker's part of addToReplay: a missing tracker is created at one
   * clock reading, with that reading plus the timeout as its deadline;
   * the server's error is reported at the next reading, and the one after
   * decides whether retries are over.  The result is the tracker, the
   * number of clock readings so far and whether this is the last retry.
   */
  function TrackReplay(tracker: Option<TrackerState>, ticks: nat, cfg: Config, clock: nat -> int, server: ServerName)
    : (r: (TrackerState, nat, bool))
    ensures tracker.Some? ==> r.0.canRetryUntil == tracker.value.canRetryUntil && r.1 == ticks + 2
    ensures tracker.None? ==> r.0.canRetryUntil == clock(ticks) + cfg.serverTrackerTimeout && r.1 == ticks + 3
    ensures r.2 <==> clock(r.1 - 1) >= r.0.canRetryUntil
  {
    var t := if tracker.None? then TrackerState(clock(ticks) + cfg.serverTrackerTimeout, map[]) else tracker.value;
    var now := if tracker.None? then ticks + 1 else ticks;
    var reported := TrackerState(t.canRetryUntil, Report(t.errorsByServer, server, clock(now)));
    (reported, now + 2, !CanRetryMore(reported, clock(now + 1)))
  }

  /**
   * addToReplay on values: the action is queued and its retries counted;
   * with a tracker (created at the first clock reading with the deadline
   * timeout later) the server's failure is reported at the next reading,
   * and a third reading decides whether the deadline passed; without one
   * the last retry is the one that reaches numTries tries.
   */
  function Replayed(b: RetryBooks, cfg: Config, clock: nat -> int, a: nat, server: ServerName): (RetryBooks, bool)
    requires a < |b.nbRetries|
  {
    var nb := b.nbRetries[a := b.nbRetries[a] + 1];
    var cur := Max(b.curNumRetries, nb[a]);
    if cfg.useServerTracker then
      var tracked := TrackReplay(b.tracker, b.ticks, cfg, clock, server);
      (RetryBooks(b.toReplay + [a], nb, cur, Some(tracked.0), tracked.1), tracked.2)
    else
      (RetryBooks(b.toReplay + [a], nb, cur, b.tracker, b.ticks), cur + 1 >= cfg.numTries)
  }

  /**
   * The analysis of one action of the n-th completed request, sent to
   * location: its cell of results is set unless the whole request
   * failed; a failure (which also updates the location cache, see
   * CacheAfter) is recorded for good or queued for a retry; a success is
   * passed to the callback.
   */
  function ActionStep(p: BatchInputs, an: Analysis, n: nat, noRetry: bool, a: nat, location: Location): (r: Analysis)
    requires WellSized(p, an.books) && a < |p.rows| && p.rows[a].Some?
    ensures WellSized(p, r.books)
  {
    var b := an.books;
    if p.env.taskFails(n) then
      if noRetry then Analysis(b, an.errors + [BatchError(a, None, location)], an.lastRetry)
      else
        var pair := Replayed(b.retry, p.cfg, p.env.clock, a, location.server);
        var r, last := pair.0, pair.1;
        Analysis(b.(retry := r), an.errors, last)
    else
      var result := p.env.reply(n, a);
      var b1 := b.(results := b.results[a := Some(result)]);
      match result
      case Failed(failure) =>
        if failure == DoNotRetry || noRetry then Analysis(b1, an.errors + [BatchError(a, Some(failure), location)], an.lastRetry)
        else
          var pair := Replayed(b1.retry, p.cfg, p.env.clock, a, location.server);
          var r, last := pair.0, pair.1;
          Analysis(b1.(retry := r), an.errors, last)
      case Success(_) =>
        Analysis(b1.(callbackLog := if p.hasCallback then b1.callbackLog + [a] else b1.callbackLog), an.errors, an.lastRetry)
  }

  /** The analysis of all the actions of a completed request, in order. */
  function TaskSteps(p: BatchInputs, an: Analysis, n: nat, noRetry: bool, actions: seq<nat>, location: Location): (r: Analysis)
    requires WellSized(p, an.books)
    requires AllSendable(p.rows, actions)
    ensures WellSized(p, r.books)
    decreases |actions|
  {
    if actions == [] then an
    else
      var init, a := actions[..|actions| - 1], actions[|actions| - 1];
      ActionStep(p, TaskSteps(p, an, n, noRetry, init, location), n, noRetry, a, location)
  }

  /** One more action analysed, as TaskSteps unfolds it. */
  lemma TaskStepsSnoc(p: BatchInputs, an: Analysis, n: nat, noRetry: bool, done: seq<nat>, a: nat, location: Location)
    requires WellSized(p, an.books) && AllSendable(p.rows, done + [a])
    ensures AllSendable(p.rows, done)
    ensures TaskSteps(p, an, n, noRetry, done + [a], location) ==
      ActionStep(p, TaskSteps(p, an, n, noRetry, done, location), n, noRetry, a, location)
  {
    assert (done + [a])[..|done|] == done;
  }

  /** One more action's answer seen by the cache, as CacheAfter unfolds it. */
  lemma CacheAfterSnoc(c: LocationCache.CacheState, table: TableName, rows: seq<Option<Bytes>>, done: seq<nat>, a: nat,
                       env: Env, n: nat, location: Location)
    requires AllSendable(rows, done + [a])
    ensures AllSendable(rows, done)
    ensures CacheAfter(c, table, rows, done + [a], env, n, location) ==
      CacheStep(CacheAfter(c, table, rows, done, env, n, location), table, rows, env, n, a, location)
  {
    assert (done + [a])[..|done|] == done;
  }


  /** addToReplay on values, field by field. */
  lemma ReplayedEffect(b: RetryBooks, cfg: Config, clock: nat -> int, a: nat, server: ServerName)
    requires a < |b.nbRetries|
    ensures var pair := Replayed(b, cfg, clock, a, server);
      var r, last := pair.0, pair.1;
      && r.toReplay == b.toReplay + [a]
      && r.nbRetries == b.nbRetries[a := b.nbRetries[a] + 1]
      && r.curNumRetries == Max(b.curNumRetries, r.nbRetries[a])
      && (!cfg.useServerTracker ==> r.tracker == b.tracker && r.ticks == b.ticks && last == (r.curNumRetries + 1 >= cfg.numTries))
      && (cfg.useServerTracker ==>
            && r.tracker.Some? && r.ticks > b.ticks
            && last == !CanRetryMore(r.tracker.value, clock(r.ticks - 1))
            && r.tracker.value.errorsByServer ==
                 Report(if b.tracker.Some? then b.tracker.value.errorsByServer else map[], server, clock(r.ticks - 2))
            && (b.tracker.Some? ==> r.tracker.value.canRetryUntil == b.tracker.value.canRetryUntil)
            && (b.tracker.None? ==> r.tracker.value.canRetryUntil == clock(b.ticks) + cfg.serverTrackerTimeout))
  {
  }

  /**
   * One action, field by field: by its fate it is queued again, logged as
   * a success or recorded as an error; its cell changes as the answer says.
   */
  lemma ActionEffect(p: BatchInputs, an: Analysis, n: nat, noRetry: bool, a: nat, location: Location)
    requires WellSized(p, an.books) && a < |p.rows| && p.rows[a].Some?
    ensures var r, b, f := ActionStep(p, an, n, noRetry, a, location), an.books, FateIn(p.env, n, noRetry, a);
      && r.books.retry == (if f == Retries then Replayed(b.retry, p.cfg, p.env.clock, a, location.server).0 else b.retry)
      && r.lastRetry == (if f == Retries then Replayed(b.retry, p.cfg, p.env.clock, a, location.server).1 else an.lastRetry)
      && r.books.callbackLog == b.callbackLog + (if p.hasCallback && f == Succeeds then [a] else [])
      && r.errors == an.errors + (if f == Errs then [BatchError(a, FailureAt(p.env, n, a), location)] else [])
      && r.books.results == (if p.env.taskFails(n) then b.results else b.results[a := Some(p.env.reply(n, a))])
  {
  }

  /** Only the queue part of ActionEffect. */
  lemma ActionQueues(p: BatchInputs, an: Analysis, n: nat, noRetry: bool, a: nat, location: Location)
    requires WellSized(p, an.books) && a < |p.rows| && p.rows[a].Some?
    ensures ActionStep(p, an, n, noRetry, a, location).books.retry.toReplay ==
      an.books.retry.toReplay + (if FateIn(p.env, n, noRetry, a) == Retries then [a] else [])
  {
  }

  /** Only the callback part of ActionEffect. */
  lemma ActionCallbacks(p: BatchInputs, an: Analysis, n: nat, noRetry: bool, a: nat, location: Location)
    requires WellSized(p, an.books) && a < |p.rows| && p.rows[a].Some?
    ensures ActionStep(p, an, n, noRetry, a, location).books.callbackLog ==
      an.books.callbackLog + (if p.hasCallback && FateIn(p.env, n, noRetry, a) == Succeeds then [a] else [])
  {
  }

  /** Only the errors part of ActionEffect. */
  lemma ActionErrors(p: BatchInputs, an: Analysis, n: nat, noRetry: bool, a: nat, location: Location)
    requires WellSized(p, an.books) && a < |p.rows| && p.rows[a].Some?
    ensures ActionStep(p, an, n, noRetry, a, location).errors ==
      an.errors + (if FateIn(p.env, n, noRetry, a) == Errs then [BatchError(a, FailureAt(p.env, n, a), location)] else [])
  {
  }

  /** Only the results part of ActionEffect. */
  lemma ActionResults(p: BatchInputs, an: Analysis, n: nat, noRetry: bool, a: nat, location: Location)
    requires WellSized(p, an.books) && a < |p.rows| && p.rows[a].Some?
    ensures ActionStep(p, an, n, noRetry, a, location).books.results ==
      if p.env.taskFails(n) then an.books.results else an.books.results[a := Some(p.env.reply(n, a))]
  {
  }

  /** A completed request queues exactly its retried actions. */
  lemma {:induction false} TaskReplays(p: BatchInputs, an: Analysis, n: nat, noRetry: bool, actions: seq<nat>, location: Location)
    requires WellSized(p, an.books) && AllSendable(p.rows, actions)
    ensures TaskSteps(p, an, n, noRetry, actions, location).books.retry.toReplay ==
      an.books.retry.toReplay + WithFate(actions, p.env, n, noRetry, Retries)
    decreases |actions|
  {
    if actions != [] {
      var init, a := actions[..|actions| - 1], actions[|actions| - 1];
      TaskReplays(p, an, n, noRetry, init, location);
      var prev := TaskSteps(p, an, n, noRetry, init, location);
      ActionQueues(p, prev, n, noRetry, a, location);
      var queued, w := an.books.retry.toReplay, WithFate(init, p.env, n, noRetry, Retries);
      assert (queued + w) + [a] == queued + (w + [a]);
    }
  }

  /** A completed request passes exactly its successes to the callback, in order. */
  lemma {:induction false} TaskCallbacks(p: BatchInputs, an: Analysis, n: nat, noRetry: bool, actions: seq<nat>, location: Location)
    requires WellSized(p, an.books) && AllSendable(p.rows, actions)
    ensures TaskSteps(p, an, n, noRetry, actions, location).books.callbackLog ==
      an.books.callbackLog + (if p.hasCallback then WithFate(actions, p.env, n, noRetry, Succeeds) else [])
    decreases |actions|
  {
    if actions != [] {
      var init, a := actions[..|actions| - 1], actions[|actions| - 1];
      TaskCallbacks(p, an, n, noRetry, init, location);
      var prev := TaskSteps(p, an, n, noRetry, init, location);
      ActionCallbacks(p, prev, n, noRetry, a, location);
      if p.hasCallback {
        var logged, w := an.books.callbackLog, WithFate(init, p.env, n, noRetry, Succeeds);
        assert (logged + w) + [a] == logged + (w + [a]);
      }
    }
  }

  /** A completed request records exactly the errors of its actions whose fate is Errs. */
  lemma {:induction false} TaskErrors(p: BatchInputs, an: Analysis, n: nat, noRetry: bool, actions: seq<nat>, location: Location)
    requires WellSized(p, an.books) && AllSendable(p.rows, actions)
    ensures TaskSteps(p, an, n, noRetry, actions, location).errors == an.errors + ErrorsOf(actions, p.env, n, noRetry, location)
    decreases |actions|
  {
    if actions != [] {
      var init, a := actions[..|actions| - 1], actions[|actions| - 1];
      TaskErrors(p, an, n, noRetry, init, location);
      var prev := TaskSteps(p, an, n, noRetry, init, location);
      ActionErrors(p, prev, n, noRetry, a, location);
      var e := [BatchError(a, FailureAt(p.env, n, a), location)];
      var w := ErrorsOf(init, p.env, n, noRetry, location);
      assert (an.errors + w) + e == an.errors + (w + e);
    }
  }


  /** The cells of a request's actions hold their answers, unless the request failed whole; other cells are kept. */
  lemma {:induction false} TaskResults(p: BatchInputs, an: Analysis, n: nat, noRetry: bool, actions: seq<nat>, location: Location)
    requires WellSized(p, an.books) && AllSendable(p.rows, actions)
    ensures var r := TaskSteps(p, an, n, noRetry, actions, location);
      forall i :: 0 <= i < |p.rows| ==>
        r.books.results[i] ==
          if !p.env.taskFails(n) && i in actions then Some(p.env.reply(n, i)) else an.books.results[i]
    decreases |actions|
  {
    if actions != [] {
      var init, a := actions[..|actions| - 1], actions[|actions| - 1];
      TaskResults(p, an, n, noRetry, init, location);
      var prev := TaskSteps(p, an, n, noRetry, init, location);
      assert actions == init + [a];
      TaskStepsSnoc(p, an, n, noRetry, init, a, location);
      ActionResults(p, prev, n, noRetry, a, location);
      var r := TaskSteps(p, an, n, noRetry, actions, location);
      forall i | 0 <= i < |p.rows|
        ensures r.books.results[i] ==
          if !p.env.taskFails(n) && i in actions then Some(p.env.reply(n, i)) else an.books.results[i]
      {
        assert i in actions <==> i in init || i == a;
      }
    }
  }

  /** addToReplay for each of a run of actions, in order, all reported against one server. */
  function ReplayAll(b: RetryBooks, last: bool, cfg: Config, clock: nat -> int, xs: seq<nat>, server: ServerName): (r: (RetryBooks, bool))
    requires forall i :: 0 <= i < |xs| ==> xs[i] < |b.nbRetries|
    ensures |r.0.nbRetries| == |b.nbRetries|
    decreases |xs|
  {
    if xs == [] then (b, last)
    else
      var prev := ReplayAll(b, last, cfg, clock, xs[..|xs| - 1], server);
      Replayed(prev.0, cfg, clock, xs[|xs| - 1], server)
  }

  /** The actions of one fate are below any bound all the actions are below. */
  lemma FateBound(actions: seq<nat>, env: Env, n: nat, noRetry: bool, f: Fate, bound: nat)
    requires forall i :: 0 <= i < |actions| ==> actions[i] < bound
    ensures var r := WithFate(actions, env, n, noRetry, f);
      forall i :: 0 <= i < |r| ==> r[i] < bound
  {
    var r := WithFate(actions, env, n, noRetry, f);
    forall i | 0 <= i < |r| ensures r[i] < bound {
      assert r[i] in r;
      var j :| 0 <= j < |actions| && actions[j] == r[i];
    }
  }

  /** What the analysis of a request does to the retry state is addToReplay for each retried action. */
  lemma {:induction false} TaskRetryState(p: BatchInputs, an: Analysis, n: nat, noRetry: bool, actions: seq<nat>, location: Location)
    requires WellSized(p, an.books) && AllSendable(p.rows, actions)
    ensures var replays := WithFate(actions, p.env, n, noRetry, Retries);
      && (forall i :: 0 <= i < |replays| ==> replays[i] < |an.books.retry.nbRetries|)
      && var t := TaskSteps(p, an, n, noRetry, actions, location);
         (t.books.retry, t.lastRetry) == ReplayAll(an.books.retry, an.lastRetry, p.cfg, p.env.clock, replays, location.server)
    decreases |actions|
  {
    var replays := WithFate(actions, p.env, n, noRetry, Retries);
    FateBound(actions, p.env, n, noRetry, Retries, |an.books.retry.nbRetries|);
    if actions != [] {
      var init, a := actions[..|actions| - 1], actions[|actions| - 1];
      TaskRetryState(p, an, n, noRetry, init, location);
      var prev := TaskSteps(p, an, n, noRetry, init, location);
      ActionEffect(p, prev, n, noRetry, a, location);
      var before := WithFate(init, p.env, n, noRetry, Retries);
      if FateIn(p.env, n, noRetry, a) == Retries {
        assert replays[..|replays| - 1] == before;
      } else {
        assert replays == before;
      }
    }
  }

  /**
   * Over a run of retries each action's count goes up by one per retry
   * and the maximum follows: it never decreases, bounds the retried
   * counts and is either the old maximum or one of the counts.
   */
  lemma {:induction false} ReplayAllCounts(b: RetryBooks, last: bool, cfg: Config, clock: nat -> int, xs: seq<nat>, server: ServerName)
    requires forall i :: 0 <= i < |xs| ==> xs[i] < |b.nbRetries|
    ensures var r := ReplayAll(b, last, cfg, clock, xs, server).0;
      && r.toReplay == b.toReplay + xs
      && (forall i :: 0 <= i < |b.nbRetries| ==> r.nbRetries[i] == b.nbRetries[i] + multiset(xs)[i])
      && r.curNumRetries >= b.curNumRetries
      && (forall i :: 0 <= i < |b.nbRetries| && i in xs ==> r.nbRetries[i] <= r.curNumRetries)
      && (r.curNumRetries == b.curNumRetries || exists i :: 0 <= i < |b.nbRetries| && r.curNumRetries == r.nbRetries[i])
    decreases |xs|
  {
    if xs != [] {
      var init, a := xs[..|xs| - 1], xs[|xs| - 1];
      ReplayAllCounts(b, last, cfg, clock, init, server);
      assert xs == init + [a];
      var prev := ReplayAll(b, last, cfg, clock, init, server);
      ReplayedEffect(prev.0, cfg, clock, a, server);
    }
  }

  /**
   * The tracker and the clock over a run of retries: without tracker they
   * stay, and the last answer compares the retries with numTries; with it
   * the tracker exists, the clock was read, and the last answer says
   * whether the deadline had passed at the last reading.  Once created,
   * the tracker keeps its deadline.
   */
  lemma {:induction false} ReplayAllTracker(b: RetryBooks, last: bool, cfg: Config, clock: nat -> int, xs: seq<nat>, server: ServerName)
    requires forall i :: 0 <= i < |xs| ==> xs[i] < |b.nbRetries|
    ensures var pair := ReplayAll(b, last, cfg, clock, xs, server);
      var r, l := pair.0, pair.1;
      && r.ticks >= b.ticks
      && (xs == [] ==> l == last && r.ticks == b.ticks && r.tracker == b.tracker)
      && (!cfg.useServerTracker ==> r.ticks == b.ticks && r.tracker == b.tracker)
      && (xs != [] && !cfg.useServerTracker ==> l == (r.curNumRetries + 1 >= cfg.numTries))
      && (xs != [] && cfg.useServerTracker ==>
            r.tracker.Some? && r.ticks > b.ticks && l == !CanRetryMore(r.tracker.value, clock(r.ticks - 1)))
      && (b.tracker.Some? ==> r.tracker.Some? && r.tracker.value.canRetryUntil == b.tracker.value.canRetryUntil)
    decreases |xs|
  {
    if xs != [] {
      var init, a := xs[..|xs| - 1], xs[|xs| - 1];
      ReplayAllTracker(b, last, cfg, clock, init, server);
      var prev := ReplayAll(b, last, cfg, clock, init, server);
      ReplayedEffect(prev.0, cfg, clock, a, server);
    }
  }

  // ---------------------------------------------------------------------
  // The main loop, on values

  /** Each recorded success has a successful answer in its cell, and each recorded failure its failure. */
  ghost predicate CellsAgree(results: seq<Option<Reply>>, errors: seq<BatchError>, succ: seq<nat>) {
    && (forall k :: 0 <= k < |succ| ==> succ[k] < |results| && results[succ[k]].Some? && results[succ[k]].value.Success?)
    && (forall k :: 0 <= k < |errors| && errors[k].failure.Some? ==>
          errors[k].index < |results| && results[errors[k].index] == Some(Failed(errors[k].failure.value)))
  }

  /**
   * What holds of the actions at the head of the main loop: each action of
   * the batch is in flight, recorded as an error or recorded as a
   * success, exactly once; the records agree with the cells of results;
   * the callback saw exactly the successes; null rows keep their cells.
   */
  ghost predicate Accounted(p: BatchInputs, b: Books, inflight: multiset<nat>, errors: seq<BatchError>, succ: seq<nat>,
                            original: seq<Option<Reply>>)
  {
    && WellSized(p, b)
    && inflight + multiset(ErrIdx(errors)) + multiset(succ) == multiset(NonNull(p.rows, Range(|p.rows|)))
    && CellsAgree(b.results, errors, succ)
    && b.callbackLog == (if p.hasCallback then succ else [])
    && |original| == |p.rows|
    && (forall i :: 0 <= i < |p.rows| && p.rows[i].None? ==> b.results[i] == original[i])
  }

  /**
   * The retry budget at the head of the main loop: counts lie between 0
   * and their maximum; without tracker the maximum stays below numTries,
   * by a margin of one while retries go on; and the last retry has ended
   * the retries.
   */
  ghost predicate Budget(p: BatchInputs, b: RetryBooks, lastRetry: bool, noRetry: bool) {
    && |b.nbRetries| == |p.rows|
    && b.curNumRetries >= 0
    && (forall i :: 0 <= i < |b.nbRetries| ==> 0 <= b.nbRetries[i] <= b.curNumRetries)
    && (!p.cfg.useServerTracker ==> b.tracker.None? && b.curNumRetries <= Max(0, p.cfg.numTries - 1))
    && (!noRetry && !p.cfg.useServerTracker ==> b.curNumRetries + 1 < p.cfg.numTries)
    && (!noRetry ==> !lastRetry)
  }

  /**
   * How much retrying is left: the unused tries per action without
   * tracker, the time to the deadline with one.
   */
  function RetryRank(p: BatchInputs, b: RetryBooks, noRetry: bool): int {
    if noRetry then 0
    else if !p.cfg.useServerTracker then Slack(b.nbRetries, p.cfg.numTries - 1)
    else if b.tracker.None? then 0
    else Max(0, b.tracker.value.canRetryUntil - p.env.clock(b.ticks))
  }

  /** The actions of a task in flight have rows, appear once and are not recorded yet. */
  lemma InTask(p: BatchInputs, rest: multiset<nat>, actions: seq<nat>, errors: seq<BatchError>, succ: seq<nat>)
    requires (rest + multiset(actions)) + multiset(ErrIdx(errors)) + multiset(succ) == multiset(NonNull(p.rows, Range(|p.rows|)))
    ensures AllSendable(p.rows, actions)
    ensures NoRepeats(multiset(actions))
    ensures forall x :: x in actions ==> x < |p.rows| && x !in succ && x !in ErrIdx(errors)
  {
    var m := multiset(NonNull(p.rows, Range(|p.rows|)));
    var others := rest + multiset(ErrIdx(errors)) + multiset(succ);
    assert multiset(actions) + others == m;
    SentActions(p.rows);
    Submultiset(multiset(actions), others, m);
    forall i | 0 <= i < |actions| ensures actions[i] < |p.rows| && p.rows[actions[i]].Some? {
      assert actions[i] in multiset(actions);
    }
    forall x | x in actions ensures x < |p.rows| && x !in succ && x !in ErrIdx(errors) {
      assert x in multiset(actions);
      Exclusive(x, multiset(actions), others, m);
    }
  }

  /** Each action has as many retries left as it has fates left: retried actions form a sub-multiset. */
  lemma RetriesAmongActions(actions: seq<nat>, env: Env, n: nat, noRetry: bool)
    ensures multiset(WithFate(actions, env, n, noRetry, Retries)) <= multiset(actions)
  {
    FatesPartition(actions, env, n, noRetry);
  }

  /**
   * The answers of a completed request, written into results, agree with
   * the successes and errors it adds; the cells of other actions are kept.
   */
  lemma CellsStep(rows: seq<Option<Bytes>>, r0: seq<Option<Reply>>, r1: seq<Option<Reply>>,
                  actions: seq<nat>, env: Env, n: nat, noRetry: bool, location: Location,
                  errors: seq<BatchError>, succ: seq<nat>)
    requires |r0| == |rows| && |r1| == |rows|
    requires forall i :: 0 <= i < |rows| ==> r1[i] == if !env.taskFails(n) && i in actions then Some(env.reply(n, i)) else r0[i]
    requires CellsAgree(r0, errors, succ)
    requires forall x :: x in actions ==> x < |rows| && x !in succ && x !in ErrIdx(errors)
    ensures CellsAgree(r1, errors + ErrorsOf(actions, env, n, noRetry, location),
                       succ + WithFate(actions, env, n, noRetry, Succeeds))
  {
    var mS := WithFate(actions, env, n, noRetry, Succeeds);
    var eo := ErrorsOf(actions, env, n, noRetry, location);
    ErrorsOfIndices(actions, env, n, noRetry, location);
    var succ' := succ + mS;
    forall k | 0 <= k < |succ'|
      ensures succ'[k] < |r1| && r1[succ'[k]].Some? && r1[succ'[k]].value.Success?
    {
      if k < |succ| {
        assert succ[k] in succ;
      } else {
        assert mS[k - |succ|] in mS;
      }
    }
    var errors' := errors + eo;
    forall k | 0 <= k < |errors'| && errors'[k].failure.Some?
      ensures errors'[k].index < |r1| && r1[errors'[k].index] == Some(Failed(errors'[k].failure.value))
    {
      if k < |errors| {
        assert ErrIdx(errors)[k] in ErrIdx(errors);
      } else {
        var e := eo[k - |errors|];
        assert e in eo;
        assert ErrIdx(eo)[k - |errors|] in WithFate(actions, env, n, noRetry, Errs);
      }
    }
  }

  /** The fates of a request's actions split them among flight, errors and successes. */
  lemma PartitionStep(rows: seq<Option<Bytes>>, rest: multiset<nat>, actions: seq<nat>, env: Env, n: nat, noRetry: bool,
                      location: Location, errors: seq<BatchError>, succ: seq<nat>)
    requires (rest + multiset(actions)) + multiset(ErrIdx(errors)) + multiset(succ) == multiset(NonNull(rows, Range(|rows|)))
    ensures (rest + multiset(WithFate(actions, env, n, noRetry, Retries)))
      + multiset(ErrIdx(errors + ErrorsOf(actions, env, n, noRetry, location)))
      + multiset(succ + WithFate(actions, env, n, noRetry, Succeeds)) == multiset(NonNull(rows, Range(|rows|)))
  {
    var eo := ErrorsOf(actions, env, n, noRetry, location);
    var mR := WithFate(actions, env, n, noRetry, Retries);
    FatesPartition(actions, env, n, noRetry);
    ErrorsOfIndices(actions, env, n, noRetry, location);
    ErrIdxAppend(errors, eo);
    PassPartition(rest + multiset(actions), rest, multiset(actions), multiset(ErrIdx(errors)), multiset(succ),
                  multiset(NonNull(rows, Range(|rows|))), multiset(WithFate(actions, env, n, noRetry, Succeeds)),
                  multiset(WithFate(actions, env, n, noRetry, Errs)), multiset(mR), multiset(mR));
  }

  /** A completed request keeps the actions accounted for, its retries moving back in flight. */
  lemma TaskAccounted(p: BatchInputs, b: Books, rest: multiset<nat>, errors: seq<BatchError>, succ: seq<nat>,
                      original: seq<Option<Reply>>, lastRetry: bool, n: nat, noRetry: bool, task: Task)
    requires Accounted(p, b, rest + multiset(task.actions), errors, succ, original)
    requires b.retry.toReplay == []
    ensures AllSendable(p.rows, task.actions) && NoRepeats(multiset(task.actions))
    ensures var t := TaskSteps(p, Analysis(b, errors, lastRetry), n, noRetry, task.actions, task.location);
      var replays := WithFate(task.actions, p.env, n, noRetry, Retries);
      && t.books.retry.toReplay == replays
      && Accounted(p, t.books, rest + multiset(replays), t.errors,
                   succ + WithFate(task.actions, p.env, n, noRetry, Succeeds), original)
  {
    var actions := task.actions;
    InTask(p, rest, actions, errors, succ);
    var an := Analysis(b, errors, lastRetry);
    TaskReplays(p, an, n, noRetry, actions, task.location);
    TaskCallbacks(p, an, n, noRetry, actions, task.location);
    TaskErrors(p, an, n, noRetry, actions, task.location);
    TaskResults(p, an, n, noRetry, actions, task.location);
    var t := TaskSteps(p, an, n, noRetry, actions, task.location);
    PartitionStep(p.rows, rest, actions, p.env, n, noRetry, task.location, errors, succ);
    CellsStep(p.rows, b.results, t.books.results, actions, p.env, n, noRetry, task.location, errors, succ);
  }

  /**
   * A run of retries keeps the retry budget: as no action is retried
   * twice, the counts grow by at most one, and the last retry ends the
   * retries.
   */
  lemma ReplayBudget(p: BatchInputs, b: RetryBooks, lastRetry: bool, noRetry: bool, xs: seq<nat>, server: ServerName)
    requires Budget(p, b, lastRetry, noRetry) && !noRetry && xs != [] && NoRepeats(multiset(xs))
    requires forall i :: 0 <= i < |xs| ==> xs[i] < |b.nbRetries|
    ensures var pair := ReplayAll(b, lastRetry, p.cfg, p.env.clock, xs, server);
      var r, last := pair.0, pair.1;
      && Budget(p, r, last, last)
      && r.curNumRetries >= 1
      && (p.cfg.useServerTracker ==> r.tracker.Some?)
  {
    var pair := ReplayAll(b, lastRetry, p.cfg, p.env.clock, xs, server);
    var r, last := pair.0, pair.1;
    ReplayAllCounts(b, lastRetry, p.cfg, p.env.clock, xs, server);
    ReplayAllTracker(b, lastRetry, p.cfg, p.env.clock, xs, server);
    forall i | 0 <= i < |r.nbRetries| ensures 0 <= r.nbRetries[i] <= r.curNumRetries && r.nbRetries[i] <= b.curNumRetries + 1 {
      assert multiset(xs)[i] <= 1;
    }
    assert xs[0] in xs;
  }

  /** Without tracker, a run of retries that is not the last leaves fewer tries. */
  lemma ReplayRankCounted(p: BatchInputs, b: RetryBooks, lastRetry: bool, xs: seq<nat>, server: ServerName)
    requires Budget(p, b, lastRetry, false) && xs != [] && NoRepeats(multiset(xs)) && !p.cfg.useServerTracker
    requires forall i :: 0 <= i < |xs| ==> xs[i] < |b.nbRetries|
    ensures var res := ReplayAll(b, lastRetry, p.cfg, p.env.clock, xs, server);
      !res.1 ==> 0 <= Slack(res.0.nbRetries, p.cfg.numTries - 1) < Slack(b.nbRetries, p.cfg.numTries - 1)
  {
    var res := ReplayAll(b, lastRetry, p.cfg, p.env.clock, xs, server);
    if !res.1 {
      ReplayBudget(p, b, lastRetry, false, xs, server);
      ReplayAllCounts(b, lastRetry, p.cfg, p.env.clock, xs, server);
      assert xs[0] in multiset(xs);
      SlackDecreases(b.nbRetries, res.0.nbRetries, p.cfg.numTries - 1);
    }
  }

  /** With a tracker, a run of retries that is not the last leaves less time, whenever the clock is read next. */
  lemma ReplayRankTimed(p: BatchInputs, b: RetryBooks, lastRetry: bool, xs: seq<nat>, server: ServerName, u: nat)
    requires xs != [] && p.cfg.useServerTracker && StrictlyIncreasing(p.env.clock) && b.tracker.Some?
    requires forall i :: 0 <= i < |xs| ==> xs[i] < |b.nbRetries|
    ensures var res := ReplayAll(b, lastRetry, p.cfg, p.env.clock, xs, server);
      !res.1 && u >= res.0.ticks ==>
        && res.0.tracker.Some?
        && 0 <= Max(0, res.0.tracker.value.canRetryUntil - p.env.clock(u))
             < Max(0, b.tracker.value.canRetryUntil - p.env.clock(b.ticks))
  {
    var res := ReplayAll(b, lastRetry, p.cfg, p.env.clock, xs, server);
    ReplayAllTracker(b, lastRetry, p.cfg, p.env.clock, xs, server);
    DeadlineApproaches(b, res.0, res.1, p.env.clock, u);
  }

  /** Time left before a tracker's deadline shrinks as the clock advances, while it stays positive. */
  lemma DeadlineApproaches(b: RetryBooks, r: RetryBooks, last: bool, clock: nat -> int, u: nat)
    requires StrictlyIncreasing(clock) && b.tracker.Some? && r.tracker.Some?
    requires r.tracker.value.canRetryUntil == b.tracker.value.canRetryUntil
    requires r.ticks > b.ticks && last == !CanRetryMore(r.tracker.value, clock(r.ticks - 1))
    ensures !last && u >= r.ticks ==>
      0 <= Max(0, r.tracker.value.canRetryUntil - clock(u)) < Max(0, b.tracker.value.canRetryUntil - clock(b.ticks))
  {
    if !last && u >= r.ticks {
      var t0, t1 := b.ticks, r.ticks - 1;
      assert clock(t0) <= clock(t1) by {
        if t0 < t1 {
          assert clock(t0) < clock(t1);
        }
      }
      assert clock(t0) < clock(u);
    }
  }

  /** Room to retry is never negative. */
  lemma RankBounded(p: BatchInputs, b: RetryBooks, lastRetry: bool, noRetry: bool)
    requires Budget(p, b, lastRetry, noRetry)
    ensures 0 <= RetryRank(p, b, noRetry)
  {
    if !noRetry && !p.cfg.useServerTracker {
      SlackDecreases(b.nbRetries, b.nbRetries, p.cfg.numTries - 1);
    }
  }

  /**
   * A run of retries: without any nothing about retrying moves; with
   * some the budget is kept, with the retries over after the last one,
   * and retrying has less room left unless it just began to be tracked.
   */
  lemma ReplayAllBudget(p: BatchInputs, b: RetryBooks, lastRetry: bool, noRetry: bool, xs: seq<nat>, server: ServerName, u: nat)
    requires Budget(p, b, lastRetry, noRetry) && NoRepeats(multiset(xs)) && (noRetry ==> xs == [])
    requires forall i :: 0 <= i < |xs| ==> xs[i] < |b.nbRetries|
    requires p.cfg.useServerTracker ==> StrictlyIncreasing(p.env.clock)
    ensures var pair := ReplayAll(b, lastRetry, p.cfg, p.env.clock, xs, server);
      var r, last := pair.0, pair.1;
      && r.ticks >= b.ticks
      && (b.tracker.Some? ==> r.tracker.Some?)
      && (xs == [] ==> r == b && last == lastRetry)
      && (xs != [] ==>
            && Budget(p, r, last, last) && r.curNumRetries >= 1
            && (p.cfg.useServerTracker ==> r.tracker.Some?)
            && (!last && u >= r.ticks && (p.cfg.useServerTracker ==> b.tracker.Some?) ==>
                  0 <= RetryRank(p, r.(ticks := u), false) < RetryRank(p, b, false)))
  {
    var pair := ReplayAll(b, lastRetry, p.cfg, p.env.clock, xs, server);
    var r, last := pair.0, pair.1;
    ReplayAllTracker(b, lastRetry, p.cfg, p.env.clock, xs, server);
    if xs != [] {
      ReplayBudget(p, b, lastRetry, noRetry, xs, server);
      if !last && u >= r.ticks {
        var r' := r.(ticks := u);
        if !p.cfg.useServerTracker {
          ReplayRankCounted(p, b, lastRetry, xs, server);
          assert RetryRank(p, r', false) == Slack(r.nbRetries, p.cfg.numTries - 1);
        } else if b.tracker.Some? {
          ReplayRankTimed(p, b, lastRetry, xs, server, u);
          assert RetryRank(p, r', false) == Max(0, r.tracker.value.canRetryUntil - p.env.clock(u));
        }
      }
    }
  }

  /** The retries of a request in flight: none once retries are over, each action at most once. */
  lemma TaskReplaySet(p: BatchInputs, actions: seq<nat>, n: nat, noRetry: bool)
    requires AllSendable(p.rows, actions) && NoRepeats(multiset(actions))
    ensures var replays := WithFate(actions, p.env, n, noRetry, Retries);
      && (noRetry ==> replays == [])
      && NoRepeats(multiset(replays))
      && (forall i :: 0 <= i < |replays| ==> replays[i] < |p.rows|)
      && (forall x :: x in replays ==> x < |p.rows| && p.rows[x].Some?)
  {
    var replays := WithFate(actions, p.env, n, noRetry, Retries);
    if noRetry {
      NoRetryNoReplay(actions, p.env, n);
    }
    RetriesAmongActions(actions, p.env, n, noRetry);
    forall x ensures multiset(replays)[x] <= 1 {
      assert multiset(replays)[x] <= multiset(actions)[x];
    }
    forall x | x in replays ensures x < |p.rows| && p.rows[x].Some? {
      var j :| 0 <= j < |actions| && actions[j] == x;
    }
    forall i | 0 <= i < |replays| ensures replays[i] < |p.rows| {
      assert replays[i] in replays;
    }
  }

  /**
   * What processBatchCallback promises once nothing is in flight: each
   * action with a row is a success or an error, exactly once; the cells
   * agree with that; the callback saw exactly the successes; the errors
   * name distinct actions with rows; without errors every row succeeded.
   */
  ghost predicate Finished(p: BatchInputs, results: seq<Option<Reply>>, callbackLog: seq<nat>,
                           errors: seq<BatchError>, succeeded: seq<nat>)
  {
    && |results| == |p.rows|
    && multiset(succeeded) + multiset(ErrIdx(errors)) == multiset(NonNull(p.rows, Range(|p.rows|)))
    && CellsAgree(results, errors, succeeded)
    && callbackLog == (if p.hasCallback then succeeded else [])
    && (forall k :: 0 <= k < |errors| ==> errors[k].index < |p.rows| && p.rows[errors[k].index].Some?)
    && (forall k1, k2 :: 0 <= k1 < k2 < |errors| ==> errors[k1].index != errors[k2].index)
    && (errors == [] ==> forall i :: 0 <= i < |p.rows| && p.rows[i].Some? ==> results[i].Some? && results[i].value.Success?)
  }

  /** Each action was retried no fewer than zero times and, without tracker, fewer than numTries times. */
  ghost predicate RetriesBounded(p: BatchInputs, nb: seq<int>) {
    && |nb| == |p.rows|
    && forall i :: 0 <= i < |nb| ==> 0 <= nb[i] && (!p.cfg.useServerTracker ==> nb[i] <= Max(0, p.cfg.numTries - 1))
  }

  /** The retry budget bounds every count. */
  lemma BudgetBounds(p: BatchInputs, b: RetryBooks, lastRetry: bool, noRetry: bool)
    requires Budget(p, b, lastRetry, noRetry)
    ensures RetriesBounded(p, b.nbRetries)
  {
  }

  /**
   * Right after the first submit every action with a row is in flight,
   * nothing is recorded or retried, and the loop can start.
   */
  lemma Started(p: BatchInputs, s: LoopView, original: seq<Option<Reply>>)
    requires s.books.retry.toReplay == [] && s.books.retry.curNumRetries == 0 && s.books.retry.tracker.None?
    requires |s.books.retry.nbRetries| == |p.rows| && forall i :: 0 <= i < |p.rows| ==> s.books.retry.nbRetries[i] == 0
    requires s.books.callbackLog == [] && s.books.results == original && |original| == |p.rows|
    requires InFlight(s.inProgress) == multiset(NonNull(p.rows, Range(|p.rows|)))
    ensures Looping(p, s, [], [], original, false, p.cfg.numTries < 2)
  {
  }

  /** The end of the main loop: with nothing in flight the batch is finished. */
  lemma Closing(p: BatchInputs, s: LoopView, errors: seq<BatchError>, succ: seq<nat>, original: seq<Option<Reply>>,
                lastRetry: bool, noRetry: bool)
    requires Looping(p, s, errors, succ, original, lastRetry, noRetry) && s.inProgress == []
    ensures Finished(p, s.books.results, s.books.callbackLog, errors, succ)
  {
    var rows, results := p.rows, s.books.results;
    var m := multiset(NonNull(rows, Range(|rows|)));
    assert InFlight(s.inProgress) == multiset{};
    SentActions(rows);
    Submultiset(multiset(ErrIdx(errors)), multiset(succ), m);
    NoRepeatsDistinct(ErrIdx(errors));
    forall k | 0 <= k < |errors| ensures errors[k].index < |rows| && rows[errors[k].index].Some? {
      assert ErrIdx(errors)[k] in multiset(ErrIdx(errors));
    }
    if errors == [] {
      forall i | 0 <= i < |rows| && rows[i].Some? ensures results[i].Some? && results[i].value.Success? {
        assert i in multiset(succ);
        var k :| 0 <= k < |succ| && succ[k] == i;
      }
    }
  }

  /** The lexicographic order on the main loop's measure, all of whose parts are non-negative. */
  ghost predicate Below(a0: int, a1: int, a2: int, a3: int, b0: int, b1: int, b2: int, b3: int) {
    && 0 <= a0 && 0 <= a1 && 0 <= a2 && 0 <= a3 && 0 <= b0 && 0 <= b1 && 0 <= b2 && 0 <= b3
    && (a0 < b0 || (a0 == b0 && (a1 < b1 || (a1 == b1 && (a2 < b2 || (a2 == b2 && a3 < b3))))))
  }

  /** Whether retries still go on: the first part of the main loop's measure. */
  function Stage(noRetry: bool): int {
    if noRetry then 0 else 1
  }

  /** Whether retries go on with a tracker not created yet: the second part of the measure. */
  function Untracked(p: BatchInputs, b: RetryBooks, noRetry: bool): int {
    if !noRetry && p.cfg.useServerTracker && b.tracker.None? then 1 else 0
  }

  /**
   * Before the retries of a completed request are submitted again: they
   * are what waits for a replay, have rows, and the tracker exists or the
   * retry count is at least one, as submit needs.
   */
  lemma RetryReady(p: BatchInputs, s: LoopView, errors0: seq<BatchError>, lastRetry0: bool, noRetry0: bool)
    requires Ready(p, s) && s.books.retry.toReplay == []
    requires forall i :: 0 <= i < |s.books.retry.nbRetries| ==> 0 <= s.books.retry.nbRetries[i]
    ensures var r := Analysed(p, s, errors0, lastRetry0, noRetry0).books.retry;
      && (r.toReplay != [] ==> r.curNumRetries >= 1 && (p.cfg.useServerTracker ==> r.tracker.Some?))
  {
    var task := s.inProgress[Picked(p, s)];
    var n := s.completions;
    var an := Analysis(s.books, errors0, lastRetry0);
    var replays := WithFate(task.actions, p.env, n, noRetry0, Retries);
    TaskReplays(p, an, n, noRetry0, task.actions, task.location);
    TaskRetryState(p, an, n, noRetry0, task.actions, task.location);
    if replays != [] {
      ReplayAllCounts(s.books.retry, lastRetry0, p.cfg, p.env.clock, replays, task.location.server);
      ReplayAllTracker(s.books.retry, lastRetry0, p.cfg, p.env.clock, replays, task.location.server);
      assert replays[0] in replays;
      assert replays[0] < |s.books.retry.nbRetries|;
    }
  }

  /**
   * One pass of the main loop on values: a completed request taken out
   * of flight, analysed into mid, and its retries (if any, and while
   * retries go on) submitted again as sent, which leaves after.  The pass
   * keeps every action accounted for and the retry budget, and it makes
   * the measure smaller.
   */
  lemma PassKeeps(p: BatchInputs, before: Books, rest: multiset<nat>, restLen: nat, task: Task,
                  errors0: seq<BatchError>, succ0: seq<nat>, original: seq<Option<Reply>>, lastRetry0: bool, noRetry0: bool,
                  n: nat, mid: Books, errors: seq<BatchError>, lastRetry: bool,
                  retried: bool, after: Books, sent: multiset<nat>, sentLen: nat, noRetry: bool, u: nat)
    requires Accounted(p, before, rest + multiset(task.actions), errors0, succ0, original) && before.retry.toReplay == []
    requires Budget(p, before.retry, lastRetry0, noRetry0)
    requires p.cfg.useServerTracker ==> StrictlyIncreasing(p.env.clock)
    requires AllSendable(p.rows, task.actions)
    requires Analysis(mid, errors, lastRetry) ==
      TaskSteps(p, Analysis(before, errors0, lastRetry0), n, noRetry0, task.actions, task.location)
    requires retried == (!noRetry0 && mid.retry.toReplay != [])
    requires retried ==>
      && after == mid.(retry := mid.retry.(toReplay := [], ticks := u)) && u >= mid.retry.ticks
      && noRetry == lastRetry && sent == multiset(mid.retry.toReplay)
    requires !retried ==> after == mid && noRetry == noRetry0 && sent == multiset{} && sentLen == 0
    ensures after.retry.toReplay == []
    ensures Accounted(p, after, rest + sent, errors, succ0 + WithFate(task.actions, p.env, n, noRetry0, Succeeds), original)
    ensures Budget(p, after.retry, lastRetry, noRetry)
    ensures Below(Stage(noRetry), Untracked(p, after.retry, noRetry), RetryRank(p, after.retry, noRetry), restLen + sentLen,
                  Stage(noRetry0), Untracked(p, before.retry, noRetry0), RetryRank(p, before.retry, noRetry0), restLen + 1)
  {
    var an := Analysis(before, errors0, lastRetry0);
    var replays := WithFate(task.actions, p.env, n, noRetry0, Retries);
    TaskAccounted(p, before, rest, errors0, succ0, original, lastRetry0, n, noRetry0, task);
    TaskRetryState(p, an, n, noRetry0, task.actions, task.location);
    TaskReplaySet(p, task.actions, n, noRetry0);
    RankBounded(p, before.retry, lastRetry0, noRetry0);
    ReplayAllBudget(p, before.retry, lastRetry0, noRetry0, replays, task.location.server, if retried then u else 0);
    if retried {
      assert RetryRank(p, after.retry, noRetry) == RetryRank(p, mid.retry.(ticks := u), noRetry);
      RankBounded(p, after.retry, lastRetry, noRetry);
    }
  }

  /** The state the main loop works on: the books, the requests in flight and the oracles' counters. */
  datatype LoopView = LoopView(books: Books, inProgress: seq<Task>, completions: nat, submits: nat)

  /** What holds at the head of the main loop. */
  ghost predicate Looping(p: BatchInputs, s: LoopView, errors: seq<BatchError>, succ: seq<nat>,
                          original: seq<Option<Reply>>, lastRetry: bool, noRetry: bool)
  {
    && Accounted(p, s.books, InFlight(s.inProgress), errors, succ, original)
    && s.books.retry.toReplay == []
    && Budget(p, s.books.retry, lastRetry, noRetry)
  }

  /** The request in flight that completes next. */
  function Picked(p: BatchInputs, s: LoopView): nat
    requires s.inProgress != []
  {
    p.env.pick(s.completions) % |s.inProgress|
  }

  /** The requests still in flight once the next one completed. */
  function Remaining(p: BatchInputs, s: LoopView): seq<Task>
    requires s.inProgress != []
  {
    var j := Picked(p, s);
    s.inProgress[..j] + s.inProgress[j + 1..]
  }

  /** The successes of the request that completes next. */
  function PassSuccesses(p: BatchInputs, s: LoopView, noRetry: bool): seq<nat>
    requires s.inProgress != []
  {
    var task := s.inProgress[Picked(p, s)];
    WithFate(task.actions, p.env, s.completions, noRetry, Succeeds)
  }

  /** The next request to complete can be analysed. */
  ghost predicate Ready(p: BatchInputs, s: LoopView) {
    WellSized(p, s.books) && s.inProgress != [] && AllSendable(p.rows, s.inProgress[Picked(p, s)].actions)
  }

  /** The analysis of the answers of the request that completes next. */
  function Analysed(p: BatchInputs, s: LoopView, errors0: seq<BatchError>, lastRetry0: bool, noRetry: bool): (r: Analysis)
    requires Ready(p, s)
    ensures WellSized(p, r.books)
  {
    var task := s.inProgress[Picked(p, s)];
    TaskSteps(p, Analysis(s.books, errors0, lastRetry0), s.completions, noRetry, task.actions, task.location)
  }

  /**
   * One pass of the main loop, from s to s': the next request completes
   * and is analysed; when retries go on and some of its actions are to
   * be retried they are submitted again, which either fails for want of
   * a location or queues them grouped per server, clears the replay list
   * and ends retries if this was the last.
   */
  ghost predicate PassRel(p: BatchInputs, s: LoopView, errors0: seq<BatchError>, lastRetry0: bool, noRetry0: bool,
                          s': LoopView, errors: seq<BatchError>, lastRetry: bool, noRetry: bool, ok: bool)
    requires Ready(p, s)
  {
    var rest := Remaining(p, s);
    var t := Analysed(p, s, errors0, lastRetry0, noRetry0);
    var replays := t.books.retry.toReplay;
    var retried := !noRetry0 && replays != [];
    && errors == t.errors && lastRetry == t.lastRetry
    && s'.completions == s.completions + 1
    && s'.submits == s.submits + (if retried then 1 else 0)
    && (ok <==> !retried || AllLocated(p.rows, replays, p.env.locate, s.submits))
    && (!ok || !retried ==> s'.books == t.books && s'.inProgress == rest && noRetry == noRetry0)
    && (ok && retried ==>
          && |s'.inProgress| >= |rest| && s'.inProgress[..|rest|] == rest
          && GroupedByServer(s'.inProgress[|rest|..], p.rows, replays, p.env.locate, s.submits)
          && s'.books == t.books.(retry := t.books.retry.(toReplay := [], ticks := s'.books.retry.ticks))
          && s'.books.retry.ticks >= t.books.retry.ticks
          && noRetry == lastRetry)
  }

  /** PassRel from its parts, as one pass produces them. */
  lemma PassIntro(p: BatchInputs, s: LoopView, errors0: seq<BatchError>, lastRetry0: bool, noRetry0: bool,
                  s': LoopView, errors: seq<BatchError>, lastRetry: bool, noRetry: bool, ok: bool,
                  rest: seq<Task>, t: Analysis, retried: bool, sent: seq<Task>)
    requires Ready(p, s) && rest == Remaining(p, s) && t == Analysed(p, s, errors0, lastRetry0, noRetry0)
    requires errors == t.errors && lastRetry == t.lastRetry
    requires retried == (!noRetry0 && t.books.retry.toReplay != [])
    requires s'.completions == s.completions + 1
    requires s'.submits == s.submits + (if retried then 1 else 0)
    requires ok <==> !retried || AllLocated(p.rows, t.books.retry.toReplay, p.env.locate, s.submits)
    requires !ok || !retried ==> s'.books == t.books && s'.inProgress == rest && noRetry == noRetry0
    requires ok && retried ==>
      && s'.inProgress == rest + sent
      && GroupedByServer(sent, p.rows, t.books.retry.toReplay, p.env.locate, s.submits)
      && s'.books == t.books.(retry := t.books.retry.(toReplay := [], ticks := s'.books.retry.ticks))
      && s'.books.retry.ticks >= t.books.retry.ticks
      && noRetry == lastRetry
    ensures PassRel(p, s, errors0, lastRetry0, noRetry0, s', errors, lastRetry, noRetry, ok)
  {
    if ok && retried {
      assert s'.inProgress[..|rest|] == rest && s'.inProgress[|rest|..] == sent;
    }
  }

  /** The requests in flight hold actions with rows only. */
  lemma TasksSendable(p: BatchInputs, s: LoopView, errors: seq<BatchError>, succ: seq<nat>,
                      original: seq<Option<Reply>>, lastRetry: bool, noRetry: bool)
    requires Looping(p, s, errors, succ, original, lastRetry, noRetry)
    ensures forall j :: 0 <= j < |s.inProgress| ==> AllSendable(p.rows, s.inProgress[j].actions)
  {
    forall j | 0 <= j < |s.inProgress| ensures AllSendable(p.rows, s.inProgress[j].actions) {
      var rest := s.inProgress[..j] + s.inProgress[j + 1..];
      InFlightRemove(s.inProgress, j);
      InTask(p, InFlight(rest), s.inProgress[j].actions, errors, succ);
    }
  }

  /** The parts of a pass whose submit found every row, spelt out. */
  lemma PassParts(p: BatchInputs, s: LoopView, errors0: seq<BatchError>, lastRetry0: bool, noRetry0: bool,
                  s': LoopView, errors: seq<BatchError>, lastRetry: bool, noRetry: bool)
    requires Ready(p, s) && s.books.retry.toReplay == []
    requires PassRel(p, s, errors0, lastRetry0, noRetry0, s', errors, lastRetry, noRetry, true)
    ensures var rest, t := Remaining(p, s), Analysed(p, s, errors0, lastRetry0, noRetry0);
      && |s'.inProgress| >= |rest|
      && var added := s'.inProgress[|rest|..];
      && s'.inProgress == rest + added
      && errors == t.errors && lastRetry == t.lastRetry
      && (noRetry0 || t.books.retry.toReplay == [] ==> s'.books == t.books && added == [] && noRetry == noRetry0)
      && (!noRetry0 && t.books.retry.toReplay != [] ==>
            && InFlight(added) == multiset(t.books.retry.toReplay)
            && s'.books == t.books.(retry := t.books.retry.(toReplay := [], ticks := s'.books.retry.ticks))
            && s'.books.retry.ticks >= t.books.retry.ticks
            && noRetry == lastRetry)
  {
    var rest, t := Remaining(p, s), Analysed(p, s, errors0, lastRetry0, noRetry0);
    var added := s'.inProgress[|rest|..];
    assert s'.inProgress == rest + added;
    if !noRetry0 && t.books.retry.toReplay != [] {
      var task := s.inProgress[Picked(p, s)];
      TaskReplays(p, Analysis(s.books, errors0, lastRetry0), s.completions, noRetry0, task.actions, task.location);
      var replays := t.books.retry.toReplay;
      forall x | x in replays ensures x < |p.rows| && p.rows[x].Some? {
        assert x in task.actions;
        var k :| 0 <= k < |task.actions| && task.actions[k] == x;
      }
      NonNullKeepsAll(p.rows, replays);
    }
  }

  /**
   * A pass whose submit found every row keeps every action accounted
   * for and the retry budget, and makes the measure of the main loop
   * smaller.
   */
  lemma PassKept(p: BatchInputs, s: LoopView, errors0: seq<BatchError>, succ0: seq<nat>, original: seq<Option<Reply>>,
                 lastRetry0: bool, noRetry0: bool,
                 s': LoopView, errors: seq<BatchError>, lastRetry: bool, noRetry: bool,
                 rest: seq<Task>, t: Analysis, added: seq<Task>)
    requires Looping(p, s, errors0, succ0, original, lastRetry0, noRetry0)
    requires p.cfg.useServerTracker ==> StrictlyIncreasing(p.env.clock)
    requires Ready(p, s) && rest == Remaining(p, s) && t == Analysed(p, s, errors0, lastRetry0, noRetry0)
    requires s'.inProgress == rest + added
    requires errors == t.errors && lastRetry == t.lastRetry
    requires noRetry0 || t.books.retry.toReplay == [] ==> s'.books == t.books && added == [] && noRetry == noRetry0
    requires !noRetry0 && t.books.retry.toReplay != [] ==>
      && InFlight(added) == multiset(t.books.retry.toReplay)
      && s'.books == t.books.(retry := t.books.retry.(toReplay := [], ticks := s'.books.retry.ticks))
      && s'.books.retry.ticks >= t.books.retry.ticks
      && noRetry == lastRetry
    ensures Looping(p, s', errors, succ0 + PassSuccesses(p, s, noRetry0), original, lastRetry, noRetry)
    ensures Below(Stage(noRetry), Untracked(p, s'.books.retry, noRetry), RetryRank(p, s'.books.retry, noRetry), |s'.inProgress|,
                  Stage(noRetry0), Untracked(p, s.books.retry, noRetry0), RetryRank(p, s.books.retry, noRetry0), |s.inProgress|)
  {
    var j := Picked(p, s);
    var task := s.inProgress[j];
    InFlightRemove(s.inProgress, j);
    InFlightAppend(rest, added);
    var retried := !noRetry0 && t.books.retry.toReplay != [];
    var sent: multiset<nat> := if retried then multiset(t.books.retry.toReplay) else multiset{};
    PassKeeps(p, s.books, InFlight(rest), |rest|, task, errors0, succ0, original, lastRetry0, noRetry0,
              s.completions, t.books, errors, lastRetry, retried, s'.books, sent, |added|, noRetry,
              s'.books.retry.ticks);
  }

  /** What one pass keeps, whichever way its submit went. */
  lemma PassStep(p: BatchInputs, s: LoopView, errors0: seq<BatchError>, succ0: seq<nat>, original: seq<Option<Reply>>,
                 lastRetry0: bool, noRetry0: bool,
                 s': LoopView, errors: seq<BatchError>, lastRetry: bool, noRetry: bool, ok: bool)
    requires Looping(p, s, errors0, succ0, original, lastRetry0, noRetry0)
    requires p.cfg.useServerTracker ==> StrictlyIncreasing(p.env.clock)
    requires Ready(p, s) && s.books.retry.toReplay == []
    requires PassRel(p, s, errors0, lastRetry0, noRetry0, s', errors, lastRetry, noRetry, ok)
    ensures ok ==> Looping(p, s', errors, succ0 + PassSuccesses(p, s, noRetry0), original, lastRetry, noRetry)
    ensures ok ==>
      Below(Stage(noRetry), Untracked(p, s'.books.retry, noRetry), RetryRank(p, s'.books.retry, noRetry), |s'.inProgress|,
            Stage(noRetry0), Untracked(p, s.books.retry, noRetry0), RetryRank(p, s.books.retry, noRetry0), |s.inProgress|)
    ensures !ok ==> Budget(p, s'.books.retry, lastRetry, true)
    ensures !ok ==> |s'.books.results| == |p.rows|
    ensures !ok ==> forall i :: 0 <= i < |p.rows| && p.rows[i].None? ==> s'.books.results[i] == original[i]
  {
    if ok {
      var rest := Remaining(p, s);
      PassParts(p, s, errors0, lastRetry0, noRetry0, s', errors, lastRetry, noRetry);
      PassKept(p, s, errors0, succ0, original, lastRetry0, noRetry0, s', errors, lastRetry, noRetry,
               rest, Analysed(p, s, errors0, lastRetry0, noRetry0), s'.inProgress[|rest|..]);
    } else {
      PassFailed(p, s, errors0, succ0, original, lastRetry0, noRetry0, s', errors, lastRetry, noRetry);
    }
  }

  /**
   * A pass whose submit missed a row still keeps the retry budget as a
   * count of retries, and the cells of null rows.
   */
  lemma PassFailed(p: BatchInputs, s: LoopView, errors0: seq<BatchError>, succ0: seq<nat>, original: seq<Option<Reply>>,
                   lastRetry0: bool, noRetry0: bool,
                   s': LoopView, errors: seq<BatchError>, lastRetry: bool, noRetry: bool)
    requires Looping(p, s, errors0, succ0, original, lastRetry0, noRetry0)
    requires p.cfg.useServerTracker ==> StrictlyIncreasing(p.env.clock)
    requires Ready(p, s)
    requires PassRel(p, s, errors0, lastRetry0, noRetry0, s', errors, lastRetry, noRetry, false)
    ensures Budget(p, s'.books.retry, lastRetry, true)
    ensures |s'.books.results| == |p.rows|
    ensures forall i :: 0 <= i < |p.rows| && p.rows[i].None? ==> s'.books.results[i] == original[i]
  {
    var j := Picked(p, s);
    var task := s.inProgress[j];
    var n := s.completions;
    var an := Analysis(s.books, errors0, lastRetry0);
    var replays := WithFate(task.actions, p.env, n, noRetry0, Retries);
    InFlightRemove(s.inProgress, j);
    InTask(p, InFlight(Remaining(p, s)), task.actions, errors0, succ0);
    TaskReplaySet(p, task.actions, n, noRetry0);
    TaskRetryState(p, an, n, noRetry0, task.actions, task.location);
    ReplayAllBudget(p, s.books.retry, lastRetry0, noRetry0, replays, task.location.server, 0);
    TaskResults(p, an, n, noRetry0, task.actions, task.location);
  }

  // ---------------------------------------------------------------------
  // Why an error is recorded

  /**
   * Retries are over: numTries leaves no retry at all; or, without
   * tracker, some action has reached its last try; or, with a tracker, a
   * clock reading made so far reached its deadline.
   */
  ghost predicate RetriesOver(cfg: Config, clock: nat -> int, nbRetries: seq<int>, tracker: Option<TrackerState>, ticks: nat) {
    || cfg.numTries < 2
    || (!cfg.useServerTracker && exists i :: 0 <= i < |nbRetries| && nbRetries[i] + 1 >= cfg.numTries)
    || (cfg.useServerTracker && tracker.Some? && exists t: nat :: t < ticks && clock(t) >= tracker.value.canRetryUntil)
  }

  /**
   * The answer to the n-th completed request that an error reports: the
   * whole request failed, for an error without failure; otherwise the
   * request answered the error's action with the error's failure.
   */
  predicate Answered(env: Env, n: nat, e: BatchError) {
    if e.failure.None? then env.taskFails(n) else !env.taskFails(n) && env.reply(n, e.index) == Failed(e.failure.value)
  }

  /**
   * Every error recorded for good reports the answer of a request that
   * completed, and was recorded because its failure is a
   * DoNotRetryIOException or because retries were over.
   */
  ghost predicate ErrorsJustified(p: BatchInputs, completions: nat, nbRetries: seq<int>, tracker: Option<TrackerState>,
                                  ticks: nat, errors: seq<BatchError>)
  {
    forall e :: e in errors ==>
      && (exists n: nat :: n < completions && Answered(p.env, n, e))
      && (e.failure == Some(DoNotRetry) || RetriesOver(p.cfg, p.env.clock, nbRetries, tracker, ticks))
  }

  /** The greatest count of retries is zero or reached by some action. */
  ghost predicate Peaked(b: RetryBooks) {
    b.curNumRetries == 0 || exists i :: 0 <= i < |b.nbRetries| && b.nbRetries[i] >= b.curNumRetries
  }

  /**
   * What holds at the head of the main loop besides Looping: retries are
   * off only once they are over, the greatest count is reached, and every
   * error recorded for good is justified.
   */
  ghost predicate Justified(p: BatchInputs, s: LoopView, errors: seq<BatchError>, noRetry: bool) {
    var b := s.books.retry;
    && (noRetry ==> RetriesOver(p.cfg, p.env.clock, b.nbRetries, b.tracker, b.ticks))
    && Peaked(b)
    && ErrorsJustified(p, s.completions, b.nbRetries, b.tracker, b.ticks, errors)
  }

  /** The retry books of b' are those of b with counts and clock readings added and the deadline kept. */
  ghost predicate Grown(b: RetryBooks, b': RetryBooks) {
    && |b'.nbRetries| == |b.nbRetries|
    && (forall i :: 0 <= i < |b.nbRetries| ==> b.nbRetries[i] <= b'.nbRetries[i])
    && b.ticks <= b'.ticks
    && (b.tracker.Some? ==> b'.tracker.Some? && b'.tracker.value.canRetryUntil == b.tracker.value.canRetryUntil)
  }

  /** Once over, retries stay over. */
  lemma OverGrows(cfg: Config, clock: nat -> int, b: RetryBooks, b': RetryBooks)
    requires RetriesOver(cfg, clock, b.nbRetries, b.tracker, b.ticks) && Grown(b, b')
    ensures RetriesOver(cfg, clock, b'.nbRetries, b'.tracker, b'.ticks)
  {
    if cfg.numTries >= 2 && !cfg.useServerTracker {
      var i :| 0 <= i < |b.nbRetries| && b.nbRetries[i] + 1 >= cfg.numTries;
      assert b'.nbRetries[i] + 1 >= cfg.numTries;
    }
  }

  /** Errors justified earlier stay justified as requests complete and retries are counted. */
  lemma JustifiedGrows(p: BatchInputs, n: nat, b: RetryBooks, n': nat, b': RetryBooks, errors: seq<BatchError>)
    requires ErrorsJustified(p, n, b.nbRetries, b.tracker, b.ticks, errors)
    requires n <= n' && Grown(b, b')
    ensures ErrorsJustified(p, n', b'.nbRetries, b'.tracker, b'.ticks, errors)
  {
    forall e | e in errors
      ensures e.failure == Some(DoNotRetry) || RetriesOver(p.cfg, p.env.clock, b'.nbRetries, b'.tracker, b'.ticks)
    {
      if e.failure != Some(DoNotRetry) {
        OverGrows(p.cfg, p.env.clock, b, b');
      }
    }
  }

  /** The errors a completed request adds report its answers, and are DoNotRetryIOExceptions unless retries are over. */
  lemma {:induction false} ErrorsOfAnswered(actions: seq<nat>, env: Env, n: nat, noRetry: bool, location: Location)
    ensures forall e :: e in ErrorsOf(actions, env, n, noRetry, location) ==>
      Answered(env, n, e) && (e.failure == Some(DoNotRetry) || noRetry)
    decreases |actions|
  {
    if actions != [] {
      ErrorsOfAnswered(actions[..|actions| - 1], env, n, noRetry, location);
    }
  }

  /**
   * The retry books after the analysis of a request and the submit of its
   * retries: counts and readings only grow, the greatest count stays
   * reached, and a last retry marks retries over.
   */
  lemma ReplayAllOver(p: BatchInputs, b: RetryBooks, last: bool, xs: seq<nat>, server: ServerName, b': RetryBooks)
    requires forall i :: 0 <= i < |xs| ==> xs[i] < |b.nbRetries|
    requires Peaked(b)
    requires var r := ReplayAll(b, last, p.cfg, p.env.clock, xs, server).0;
      b'.nbRetries == r.nbRetries && b'.curNumRetries == r.curNumRetries && b'.tracker == r.tracker && b'.ticks >= r.ticks
    ensures Grown(b, b') && Peaked(b')
    ensures xs != [] && ReplayAll(b, last, p.cfg, p.env.clock, xs, server).1 ==>
      RetriesOver(p.cfg, p.env.clock, b'.nbRetries, b'.tracker, b'.ticks)
  {
    var pair := ReplayAll(b, last, p.cfg, p.env.clock, xs, server);
    var r := pair.0;
    ReplayAllCounts(b, last, p.cfg, p.env.clock, xs, server);
    ReplayAllTracker(b, last, p.cfg, p.env.clock, xs, server);
    if r.curNumRetries == b.curNumRetries && b.curNumRetries != 0 {
      var i :| 0 <= i < |b.nbRetries| && b.nbRetries[i] >= b.curNumRetries;
      assert b'.nbRetries[i] >= b'.curNumRetries;
    }
    if xs != [] && pair.1 {
      if p.cfg.useServerTracker {
        assert p.env.clock(r.ticks - 1) >= r.tracker.value.canRetryUntil;
      } else if r.curNumRetries != 0 {
        var i :| 0 <= i < |b'.nbRetries| && b'.nbRetries[i] >= b'.curNumRetries;
        assert b'.nbRetries[i] + 1 >= p.cfg.numTries;
      }
    }
  }

  /**
   * A pass whose submit found every row keeps the errors justified: those
   * of the completed request report its answers, and were recorded for a
   * DoNotRetryIOException or with retries over, which they stay.
   */
  lemma PassJustified(p: BatchInputs, s: LoopView, errors0: seq<BatchError>, lastRetry0: bool, noRetry0: bool,
                      s': LoopView, errors: seq<BatchError>, lastRetry: bool, noRetry: bool)
    requires Ready(p, s) && s.books.retry.toReplay == []
    requires PassRel(p, s, errors0, lastRetry0, noRetry0, s', errors, lastRetry, noRetry, true)
    requires Justified(p, s, errors0, noRetry0)
    ensures Justified(p, s', errors, noRetry)
  {
    var task := s.inProgress[Picked(p, s)];
    var n := s.completions;
    var an := Analysis(s.books, errors0, lastRetry0);
    var replays := WithFate(task.actions, p.env, n, noRetry0, Retries);
    var b, b' := s.books.retry, s'.books.retry;
    TaskErrors(p, an, n, noRetry0, task.actions, task.location);
    TaskRetryState(p, an, n, noRetry0, task.actions, task.location);
    ReplayAllCounts(b, lastRetry0, p.cfg, p.env.clock, replays, task.location.server);
    ReplayAllOver(p, b, lastRetry0, replays, task.location.server, b');
    ErrorsOfAnswered(task.actions, p.env, n, noRetry0, task.location);
    if noRetry0 {
      OverGrows(p.cfg, p.env.clock, b, b');
    }
    JustifiedGrows(p, n, b, n + 1, b', errors0);
    var added := ErrorsOf(task.actions, p.env, n, noRetry0, task.location);
    assert errors == errors0 + added;
    forall e | e in added
      ensures exists k: nat :: k < s'.completions && Answered(p.env, k, e)
      ensures e.failure == Some(DoNotRetry) || RetriesOver(p.cfg, p.env.clock, b'.nbRetries, b'.tracker, b'.ticks)
    {
      assert Answered(p.env, n, e);
    }
  }

  /**
   * All that one pass keeps, whichever way its submit went: while every
   * retried row is located, the accounting, the retry budget and the
   * justification of the errors, with a smaller measure; otherwise the
   * budget, the cells of null rows, and a submit that missed a row.
   */
  lemma PassOutcome(p: BatchInputs, s: LoopView, errors0: seq<BatchError>, succ0: seq<nat>, original: seq<Option<Reply>>,
                    lastRetry0: bool, noRetry0: bool,
                    s': LoopView, errors: seq<BatchError>, lastRetry: bool, noRetry: bool, ok: bool)
    requires Looping(p, s, errors0, succ0, original, lastRetry0, noRetry0) && Justified(p, s, errors0, noRetry0)
    requires p.cfg.useServerTracker ==> StrictlyIncreasing(p.env.clock)
    requires Ready(p, s)
    requires PassRel(p, s, errors0, lastRetry0, noRetry0, s', errors, lastRetry, noRetry, ok)
    ensures ok ==> Looping(p, s', errors, succ0 + PassSuccesses(p, s, noRetry0), original, lastRetry, noRetry)
    ensures ok ==> Justified(p, s', errors, noRetry)
    ensures ok ==>
      Below(Stage(noRetry), Untracked(p, s'.books.retry, noRetry), RetryRank(p, s'.books.retry, noRetry), |s'.inProgress|,
            Stage(noRetry0), Untracked(p, s.books.retry, noRetry0), RetryRank(p, s.books.retry, noRetry0), |s.inProgress|)
    ensures !ok ==> Budget(p, s'.books.retry, lastRetry, true)
    ensures !ok ==> |s'.books.results| == |p.rows|
    ensures !ok ==> forall i :: 0 <= i < |p.rows| && p.rows[i].None? ==> s'.books.results[i] == original[i]
    ensures !ok ==> LastSubmitMissed(p.rows, p.env.locate, s'.submits)
    ensures Locatable(p.rows, p.env.locate) ==> ok
  {
    PassStep(p, s, errors0, succ0, original, lastRetry0, noRetry0, s', errors, lastRetry, noRetry, ok);
    if ok {
      PassJustified(p, s, errors0, lastRetry0, noRetry0, s', errors, lastRetry, noRetry);
    } else {
      Missed(p.rows, Analysed(p, s, errors0, lastRetry0, noRetry0).books.retry.toReplay, p.env.locate, s.submits);
    }
  }

  // ---------------------------------------------------------------------
  // The processor

  /**
   * Process: one batch of rows against one table.  The fields mirror the
   * source's; submits, completions and ticks count how often the oracles
   * of the environment were consulted, and callbackLog records, for each
   * call of the callback, the action it was made for.
   */
  class Process {
    const rows: seq<Option<Bytes>>
    const table: TableName
    const results: array<Option<Reply>>
    const hasCallback: bool
    const cfg: Config
    const env: Env
    const cache: LocationCache.RegionLocationCache

    var toReplay: seq<nat>
    var inProgress: seq<Task>
    var errorsByServer: ServerErrorTracker?
    var curNumRetries: int

    var submits: nat
    var completions: nat
    var ticks: nat
    var callbackLog: seq<nat>

    constructor (rows: seq<Option<Bytes>>, table: TableName, results: array<Option<Reply>>, hasCallback: bool,
                 cfg: Config, env: Env, cache: LocationCache.RegionLocationCache)
      ensures this.rows == rows && this.table == table && this.results == results
      ensures this.hasCallback == hasCallback && this.cfg == cfg && this.env == env && this.cache == cache
      ensures toReplay == [] && inProgress == [] && errorsByServer == null && curNumRetries == 0
      ensures submits == 0 && completions == 0 && ticks == 0 && callbackLog == []
    {
      this.rows, this.table, this.results, this.hasCallback := rows, table, results, hasCallback;
      this.cfg, this.env, this.cache := cfg, env, cache;
      toReplay, inProgress, errorsByServer, curNumRetries := [], [], null, 0;
      submits, completions, ticks, callbackLog := 0, 0, 0, [];
    }

    /** The tracker's state, once it exists. */
    ghost function Tracker(): Option<TrackerState>
      reads this, errorsByServer
    {
      if errorsByServer == null then None else Some(errorsByServer.State())
    }

    /**
     * submit: group the actions per server and queue one task per server.
     * Every row must be located, or nothing is queued.  A retry is preceded
     * by a pause: the tracker's backoff for the server, read at one clock
     * reading per task, or the scheduled pause for the retries so far.
     */
    method Submit(actions: seq<nat>, isRetry: bool) returns (ok: bool)
      requires isRetry && cfg.useServerTracker ==> errorsByServer != null
      requires isRetry && !cfg.useServerTracker ==> curNumRetries >= 1
      modifies this
      ensures toReplay == old(toReplay) && errorsByServer == old(errorsByServer) && curNumRetries == old(curNumRetries)
      ensures completions == old(completions) && callbackLog == old(callbackLog)
      ensures ok <==> AllLocated(rows, actions, env.locate, old(submits))
      ensures submits == old(submits) + 1
      ensures !ok ==> inProgress == old(inProgress) && ticks == old(ticks)
      ensures ok ==> |inProgress| >= |old(inProgress)| && inProgress[..|old(inProgress)|] == old(inProgress)
      ensures ok ==> GroupedByServer(inProgress[|old(inProgress)|..], rows, actions, env.locate, old(submits))
      ensures ok ==> var sent := inProgress[|old(inProgress)|..];
        forall j :: 0 <= j < |sent| ==>
          sent[j].backoff == RetryPause(cfg, isRetry, Tracker(), curNumRetries, sent[j].location.server, env.clock(old(ticks) + j))
      ensures ok ==> ticks == old(ticks) + (if isRetry && cfg.useServerTracker then |inProgress| - |old(inProgress)| else 0)
    {
      var groups;
      ghost var k := submits;
      ok, groups := GroupByServer(rows, actions, env.locate, submits);
      submits := submits + 1;
      if ok {
        Send(groups, isRetry);
        ghost var sent := inProgress[|old(inProgress)|..];
        RegroupSame(groups, sent, rows, actions, env.locate, k);
      }
    }

    /** The sending half of submit: one task per group, after its pause. */
    method Send(groups: seq<Task>, isRetry: bool)
      requires isRetry && cfg.useServerTracker ==> errorsByServer != null
      requires isRetry && !cfg.useServerTracker ==> curNumRetries >= 1
      modifies this
      ensures toReplay == old(toReplay) && errorsByServer == old(errorsByServer) && curNumRetries == old(curNumRetries)
      ensures completions == old(completions) && callbackLog == old(callbackLog) && submits == old(submits)
      ensures |inProgress| == |old(inProgress)| + |groups| && inProgress[..|old(inProgress)|] == old(inProgress)
      ensures var sent := inProgress[|old(inProgress)|..];
        forall j :: 0 <= j < |groups| ==>
          sent[j].actions == groups[j].actions && sent[j].location == groups[j].location &&
          sent[j].backoff == RetryPause(cfg, isRetry, Tracker(), curNumRetries, sent[j].location.server, env.clock(old(ticks) + j))
      ensures ticks == old(ticks) + (if isRetry && cfg.useServerTracker then |groups| else 0)
    {
      var sent: seq<Task> := [];
      while |sent| < |groups|
        invariant |sent| <= |groups|
        invariant toReplay == old(toReplay) && errorsByServer == old(errorsByServer) && curNumRetries == old(curNumRetries)
        invariant completions == old(completions) && callbackLog == old(callbackLog) && submits == old(submits)
        invariant inProgress == old(inProgress) + sent
        invariant forall j :: 0 <= j < |sent| ==>
          sent[j].actions == groups[j].actions && sent[j].location == groups[j].location &&
          sent[j].backoff == RetryPause(cfg, isRetry, Tracker(), curNumRetries, groups[j].location.server, env.clock(old(ticks) + j))
        invariant ticks == old(ticks) + (if isRetry && cfg.useServerTracker then |sent| else 0)
        decreases |groups| - |sent|
      {
        var group := groups[|sent|];
        var backoffTime := 0;
        if isRetry {
          if cfg.useServerTracker {
            backoffTime := errorsByServer.CalculateBackoffTime(group.location.server, cfg.pause, env.clock(ticks), cfg.pauseTime);
            ticks := ticks + 1;
          } else {
            backoffTime := cfg.pauseTime(cfg.pause, curNumRetries - 1);
          }
        }
        sent := sent + [Task(group.actions, group.location, backoffTime)];
        inProgress := inProgress + [Task(group.actions, group.location, backoffTime)];
      }
      assert inProgress[|old(inProgress)|..] == sent;
    }

    /** The state the analysis of answers changes, as a value. */
    ghost function Snapshot(nb: array<int>): Books
      reads this, results, nb, errorsByServer
    {
      Books(RetrySnapshot(nb), callbackLog, results[..])
    }

    /** The state addToReplay changes, as a value. */
    ghost function RetrySnapshot(nb: array<int>): RetryBooks
      reads this, nb, errorsByServer
    {
      RetryBooks(toReplay, nb[..], curNumRetries, Tracker(), ticks)
    }

    /** The fixed inputs of the batch, as a value. */
    function Batch(): BatchInputs {
      BatchInputs(rows, table, hasCallback, cfg, env)
    }

    /**
     * addToReplay: queue the action again and count its retry; report it
     * to the tracker (created on first use) when retries are bounded by
     * time.  The answer says whether this is the last retry.
     */
    method AddToReplay(nb: array<int>, a: nat, source: Location) returns (last: bool)
      requires a < nb.Length
      modifies this, nb, errorsByServer
      ensures RetrySnapshot(nb) == Replayed(old(RetrySnapshot(nb)), cfg, env.clock, a, source.server).0
      ensures last == Replayed(old(RetrySnapshot(nb)), cfg, env.clock, a, source.server).1
      ensures callbackLog == old(callbackLog)
      ensures inProgress == old(inProgress) && submits == old(submits) && completions == old(completions)
      ensures old(errorsByServer) != null ==> errorsByServer == old(errorsByServer)
      ensures old(errorsByServer) == null && errorsByServer != null ==> fresh(errorsByServer)
    {
      toReplay := toReplay + [a];
      nb[a] := nb[a] + 1;
      if nb[a] > curNumRetries {
        curNumRetries := nb[a];
      }
      if cfg.useServerTracker {
        last := Track(source.server);
      } else {
        last := curNumRetries + 1 >= cfg.numTries;
      }
    }

    /** The tracker's part of addToReplay, creating the tracker on first use. */
    method Track(server: ServerName) returns (last: bool)
      modifies this, errorsByServer
      ensures var r := TrackReplay(old(Tracker()), old(ticks), cfg, env.clock, server);
        errorsByServer != null && errorsByServer.State() == r.0 && ticks == r.1 && last == r.2
      ensures toReplay == old(toReplay) && curNumRetries == old(curNumRetries)
      ensures callbackLog == old(callbackLog)
      ensures inProgress == old(inProgress) && submits == old(submits) && completions == old(completions)
      ensures old(errorsByServer) != null ==> errorsByServer == old(errorsByServer)
      ensures old(errorsByServer) == null ==> fresh(errorsByServer)
    {
      if errorsByServer == null {
        errorsByServer := new ServerErrorTracker(cfg.serverTrackerTimeout, env.clock(ticks));
        ticks := ticks + 1;
      }
      errorsByServer.ReportServerError(server, env.clock(ticks));
      ticks := ticks + 1;
      last := !CanRetryMore(errorsByServer.State(), env.clock(ticks));
      ticks := ticks + 1;
    }

    /**
     * The analysis of one action of the n-th completed request, sent to
     * location, as ActionStep describes it.
     */
    method AnalyseAction(nb: array<int>, a: nat, n: nat, noRetry: bool, location: Location,
                         errors0: seq<BatchError>, lastRetry0: bool, ghost an: Analysis, ghost c: LocationCache.CacheState)
      returns (errors: seq<BatchError>, lastRetry: bool)
      requires a < |rows| && rows[a].Some? && results.Length == |rows| && nb.Length == |rows|
      requires cache.Valid()
      requires an == Analysis(Snapshot(nb), errors0, lastRetry0) && c == cache.State()
      modifies this, results, cache, nb, errorsByServer
      ensures cache.Valid() && cache.prefetchDisabled == old(cache.prefetchDisabled)
      ensures Analysis(Snapshot(nb), errors, lastRetry) == ActionStep(Batch(), an, n, noRetry, a, location)
      ensures cache.State() == CacheStep(c, table, rows, env, n, a, location)
      ensures inProgress == old(inProgress) && submits == old(submits) && completions == old(completions)
      ensures old(errorsByServer) != null ==> errorsByServer == old(errorsByServer)
      ensures old(errorsByServer) == null && errorsByServer != null ==> fresh(errorsByServer)
    {
      if env.taskFails(n) {
        errors, lastRetry := WholeRequestFailed(nb, a, n, noRetry, location, errors0, lastRetry0, an, c);
      } else {
        errors, lastRetry := ActionAnswered(nb, a, n, noRetry, location, errors0, lastRetry0, an, c);
      }
    }

    /** An action of a request that failed as a whole: no result, and no particular cause for the cache. */
    method WholeRequestFailed(nb: array<int>, a: nat, n: nat, noRetry: bool, location: Location,
                              errors0: seq<BatchError>, lastRetry0: bool, ghost an: Analysis, ghost c: LocationCache.CacheState)
      returns (errors: seq<BatchError>, lastRetry: bool)
      requires a < |rows| && rows[a].Some? && results.Length == |rows| && nb.Length == |rows|
      requires cache.Valid() && env.taskFails(n)
      requires an == Analysis(Snapshot(nb), errors0, lastRetry0) && c == cache.State()
      modifies this, cache, nb, errorsByServer
      ensures cache.Valid() && cache.prefetchDisabled == old(cache.prefetchDisabled)
      ensures Analysis(Snapshot(nb), errors, lastRetry) == ActionStep(Batch(), an, n, noRetry, a, location)
      ensures cache.State() == CacheStep(c, table, rows, env, n, a, location)
      ensures inProgress == old(inProgress) && submits == old(submits) && completions == old(completions)
      ensures old(errorsByServer) != null ==> errorsByServer == old(errorsByServer)
      ensures old(errorsByServer) == null && errorsByServer != null ==> fresh(errorsByServer)
    {
      errors, lastRetry := errors0, lastRetry0;
      cache.UpdateCachedLocations(table, rows[a].value, LocationCache.OtherCause, location);
      if noRetry {
        errors := errors + [BatchError(a, None, location)];
      } else {
        lastRetry := AddToReplay(nb, a, location);
      }
    }

    /** An action with an answer of its own: the answer is its result. */
    method ActionAnswered(nb: array<int>, a: nat, n: nat, noRetry: bool, location: Location,
                          errors0: seq<BatchError>, lastRetry0: bool, ghost an: Analysis, ghost c: LocationCache.CacheState)
      returns (errors: seq<BatchError>, lastRetry: bool)
      requires a < |rows| && rows[a].Some? && results.Length == |rows| && nb.Length == |rows|
      requires cache.Valid() && !env.taskFails(n)
      requires an == Analysis(Snapshot(nb), errors0, lastRetry0) && c == cache.State()
      modifies this, results, cache, nb, errorsByServer
      ensures cache.Valid() && cache.prefetchDisabled == old(cache.prefetchDisabled)
      ensures Analysis(Snapshot(nb), errors, lastRetry) == ActionStep(Batch(), an, n, noRetry, a, location)
      ensures cache.State() == CacheStep(c, table, rows, env, n, a, location)
      ensures inProgress == old(inProgress) && submits == old(submits) && completions == old(completions)
      ensures old(errorsByServer) != null ==> errorsByServer == old(errorsByServer)
      ensures old(errorsByServer) == null && errorsByServer != null ==> fresh(errorsByServer)
    {
      errors, lastRetry := errors0, lastRetry0;
      var result := env.reply(n, a);
      results[a] := Some(result);
      match result {
        case Failed(failure) =>
          cache.UpdateCachedLocations(table, rows[a].value, CauseOf(Some(failure)), location);
          if failure == DoNotRetry || noRetry {
            errors := errors + [BatchError(a, Some(failure), location)];
          } else {
            lastRetry := AddToReplay(nb, a, location);
          }
        case Success(_) =>
          if hasCallback {
            callbackLog := callbackLog + [a];
          }
      }
    }

    /**
     * The analysis of one completed request: every action of the task in
     * order, as TaskSteps describes it.
     */
    method AnalyseTask(nb: array<int>, task: Task, n: nat, noRetry: bool, errors0: seq<BatchError>, lastRetry0: bool)
      returns (errors: seq<BatchError>, lastRetry: bool)
      requires AllSendable(rows, task.actions)
      requires results.Length == |rows| && nb.Length == |rows|
      requires cache.Valid()
      modifies this, results, cache, nb, errorsByServer
      ensures cache.Valid() && cache.prefetchDisabled == old(cache.prefetchDisabled)
      ensures Analysis(Snapshot(nb), errors, lastRetry) ==
        TaskSteps(Batch(), Analysis(old(Snapshot(nb)), errors0, lastRetry0), n, noRetry, task.actions, task.location)
      ensures cache.State() == CacheAfter(old(cache.State()), table, rows, task.actions, env, n, task.location)
      ensures inProgress == old(inProgress) && submits == old(submits) && completions == old(completions)
      ensures old(errorsByServer) != null ==> errorsByServer == old(errorsByServer)
      ensures old(errorsByServer) == null && errorsByServer != null ==> fresh(errorsByServer)
    {
      var actions := task.actions;
      errors, lastRetry := errors0, lastRetry0;
      ghost var an0, c0 := Analysis(Snapshot(nb), errors0, lastRetry0), cache.State();
      var k := 0;
      while k < |actions|
        invariant 0 <= k <= |actions|
        invariant AllSendable(rows, actions[..k])
        invariant cache.Valid() && cache.prefetchDisabled == old(cache.prefetchDisabled)
        invariant Analysis(Snapshot(nb), errors, lastRetry) == TaskSteps(Batch(), an0, n, noRetry, actions[..k], task.location)
        invariant cache.State() == CacheAfter(c0, table, rows, actions[..k], env, n, task.location)
        invariant inProgress == old(inProgress) && submits == old(submits) && completions == old(completions)
        invariant old(errorsByServer) != null ==> errorsByServer == old(errorsByServer)
        invariant old(errorsByServer) == null && errorsByServer != null ==> fresh(errorsByServer)
        decreases |actions| - k
      {
        errors, lastRetry := AnalyseNext(nb, task, n, noRetry, k, errors, lastRetry, an0, c0);
        k := k + 1;
      }
      assert actions[..k] == actions;
    }

    /** One more action of a completed request analysed: the loop body of AnalyseTask. */
    method AnalyseNext(nb: array<int>, task: Task, n: nat, noRetry: bool, k: nat, errors0: seq<BatchError>, lastRetry0: bool,
                       ghost an0: Analysis, ghost c0: LocationCache.CacheState)
      returns (errors: seq<BatchError>, lastRetry: bool)
      requires AllSendable(rows, task.actions) && k < |task.actions| && AllSendable(rows, task.actions[..k])
      requires results.Length == |rows| && nb.Length == |rows|
      requires cache.Valid() && WellSized(Batch(), an0.books)
      requires Analysis(Snapshot(nb), errors0, lastRetry0) == TaskSteps(Batch(), an0, n, noRetry, task.actions[..k], task.location)
      requires cache.State() == CacheAfter(c0, table, rows, task.actions[..k], env, n, task.location)
      modifies this, results, cache, nb, errorsByServer
      ensures AllSendable(rows, task.actions[..k + 1])
      ensures cache.Valid() && cache.prefetchDisabled == old(cache.prefetchDisabled)
      ensures Analysis(Snapshot(nb), errors, lastRetry) == TaskSteps(Batch(), an0, n, noRetry, task.actions[..k + 1], task.location)
      ensures cache.State() == CacheAfter(c0, table, rows, task.actions[..k + 1], env, n, task.location)
      ensures inProgress == old(inProgress) && submits == old(submits) && completions == old(completions)
      ensures old(errorsByServer) != null ==> errorsByServer == old(errorsByServer)
      ensures old(errorsByServer) == null && errorsByServer != null ==> fresh(errorsByServer)
    {
      var a := task.actions[k];
      ghost var done := task.actions[..k];
      assert task.actions[..k + 1] == done + [a];
      TaskStepsSnoc(Batch(), an0, n, noRetry, done, a, task.location);
      CacheAfterSnoc(c0, table, rows, done, a, env, n, task.location);
      errors, lastRetry := AnalyseAction(nb, a, n, noRetry, task.location, errors0, lastRetry0,
                                         Analysis(Snapshot(nb), errors0, lastRetry0), cache.State());
    }

    /** The state of the main loop, as a value. */
    ghost function View(nb: array<int>): LoopView
      reads this, results, nb, errorsByServer
    {
      LoopView(Snapshot(nb), inProgress, completions, submits)
    }

    /**
     * removeFirstDone and the analysis of its answers: the request that
     * completes next leaves the requests in flight and its answers are
     * analysed as Analysed describes.
     */
    method Complete(nb: array<int>, errors0: seq<BatchError>, lastRetry0: bool, noRetry: bool)
      returns (errors: seq<BatchError>, lastRetry: bool)
      requires inProgress != [] && AllSendable(rows, inProgress[env.pick(completions) % |inProgress|].actions)
      requires results.Length == |rows| && nb.Length == |rows|
      requires cache.Valid()
      modifies this, results, cache, nb, errorsByServer
      ensures cache.Valid() && cache.prefetchDisabled == old(cache.prefetchDisabled)
      ensures old(errorsByServer) != null ==> errorsByServer == old(errorsByServer)
      ensures old(errorsByServer) == null && errorsByServer != null ==> fresh(errorsByServer)
      ensures inProgress == Remaining(Batch(), old(View(nb)))
      ensures completions == old(completions) + 1 && submits == old(submits)
      ensures Analysis(Snapshot(nb), errors, lastRetry) == Analysed(Batch(), old(View(nb)), errors0, lastRetry0, noRetry)
      ensures var task := old(inProgress[env.pick(completions) % |inProgress|]);
        cache.State() == CacheAfter(old(cache.State()), table, rows, task.actions, env, old(completions), task.location)
    {
      var j := env.pick(completions) % |inProgress|;
      var task := inProgress[j];
      inProgress := inProgress[..j] + inProgress[j + 1..];
      var n := completions;
      completions := completions + 1;
      errors, lastRetry := AnalyseTask(nb, task, n, noRetry, errors0, lastRetry0);
    }

    /** doRetry: submit the actions to replay again, then clear them. */
    method DoRetry() returns (ok: bool)
      requires cfg.useServerTracker ==> errorsByServer != null
      requires !cfg.useServerTracker ==> curNumRetries >= 1
      modifies this
      ensures errorsByServer == old(errorsByServer) && curNumRetries == old(curNumRetries)
      ensures completions == old(completions) && callbackLog == old(callbackLog)
      ensures ok <==> AllLocated(rows, old(toReplay), env.locate, old(submits))
      ensures submits == old(submits) + 1
      ensures !ok ==> toReplay == old(toReplay) && inProgress == old(inProgress) && ticks == old(ticks)
      ensures ok ==> toReplay == [] && ticks >= old(ticks)
      ensures ok ==> |inProgress| >= |old(inProgress)| && inProgress[..|old(inProgress)|] == old(inProgress)
      ensures ok ==> GroupedByServer(inProgress[|old(inProgress)|..], rows, old(toReplay), env.locate, old(submits))
    {
      ok := Submit(toReplay, true);
      if ok {
        toReplay := [];
      }
    }

    /**
     * One pass of the main loop of processBatchCallback, as PassRel
     * describes it.
     */
    method Round(nb: array<int>, errors0: seq<BatchError>, lastRetry0: bool, noRetry0: bool,
                 ghost c0: LocationCache.CacheState, ghost n0: nat, ghost completed0: seq<Task>)
      returns (ok: bool, errors: seq<BatchError>, lastRetry: bool, noRetry: bool, ghost completed: seq<Task>)
      requires Ready(Batch(), View(nb)) && View(nb).books.retry.toReplay == []
      requires forall i :: 0 <= i < nb.Length ==> 0 <= nb[i]
      requires cache.Valid()
      requires completions == n0 + |completed0| && CacheFollows(cache.State(), c0, table, rows, completed0, env, n0)
      modifies this, results, cache, nb, errorsByServer
      ensures cache.Valid() && cache.prefetchDisabled == old(cache.prefetchDisabled)
      ensures completed == completed0 + [old(inProgress)[env.pick(old(completions)) % |old(inProgress)|]]
      ensures CacheFollows(cache.State(), c0, table, rows, completed, env, n0)
      ensures old(errorsByServer) != null ==> errorsByServer == old(errorsByServer)
      ensures old(errorsByServer) == null && errorsByServer != null ==> fresh(errorsByServer)
      ensures PassRel(Batch(), old(View(nb)), errors0, lastRetry0, noRetry0, View(nb), errors, lastRetry, noRetry, ok)
    {
      ghost var s0 := View(nb);
      assert s0.books.retry.nbRetries == nb[..];
      RetryReady(Batch(), s0, errors0, lastRetry0, noRetry0);
      ghost var c, task := cache.State(), inProgress[env.pick(completions) % |inProgress|];
      errors, lastRetry := Complete(nb, errors0, lastRetry0, noRetry0);
      CacheAfterTasksSnoc(c0, table, rows, completed0, task, env, n0, c, cache.State());
      completed := completed0 + [task];
      ghost var t := Analysed(Batch(), s0, errors0, lastRetry0, noRetry0);
      ghost var sent;
      ok, noRetry, sent := Retry(nb, lastRetry, noRetry0);
      PassIntro(Batch(), s0, errors0, lastRetry0, noRetry0, View(nb), errors, lastRetry, noRetry, ok,
                Remaining(Batch(), s0), t, !noRetry0 && t.books.retry.toReplay != [], sent);
    }

    /**
     * The retry half of a pass: unless retries are off, the actions queued
     * for replay are submitted again; `lastRetry` then ends the retries.
     */
    method Retry(nb: array<int>, lastRetry: bool, noRetry0: bool) returns (ok: bool, noRetry: bool, ghost sent: seq<Task>)
      requires toReplay != [] ==> curNumRetries >= 1 && (cfg.useServerTracker ==> errorsByServer != null)
      modifies this
      ensures errorsByServer == old(errorsByServer)
      ensures var s, s' := old(View(nb)), View(nb);
        var retried := !noRetry0 && s.books.retry.toReplay != [];
        && s'.completions == s.completions
        && s'.submits == s.submits + (if retried then 1 else 0)
        && (ok <==> !retried || AllLocated(rows, s.books.retry.toReplay, env.locate, s.submits))
        && (!ok || !retried ==> s'.books == s.books && s'.inProgress == s.inProgress && noRetry == noRetry0)
        && (ok && retried ==>
              && s'.inProgress == s.inProgress + sent
              && GroupedByServer(sent, rows, s.books.retry.toReplay, env.locate, s.submits)
              && s'.books == s.books.(retry := s.books.retry.(toReplay := [], ticks := s'.books.retry.ticks))
              && s'.books.retry.ticks >= s.books.retry.ticks
              && noRetry == lastRetry)
    {
      noRetry := noRetry0;
      ok := true;
      sent := [];
      if !noRetry && toReplay != [] {
        var before := inProgress;
        ok := DoRetry();
        sent := inProgress[|before|..];
        if ok {
          assert inProgress == before + sent;
          if lastRetry {
            noRetry := true;
          }
        }
      }
    }

    /**
     * One pass of the main loop with what it keeps: while every retried
     * row is located, every action stays accounted for, the retry budget
     * holds and the loop's measure gets smaller.
     */
    method Pass(nb: array<int>, ghost s: LoopView, ghost original: seq<Option<Reply>>, errors0: seq<BatchError>,
                ghost succ0: seq<nat>, lastRetry0: bool, noRetry0: bool,
                ghost c0: LocationCache.CacheState, ghost n0: nat, ghost completed0: seq<Task>)
      returns (ok: bool, errors: seq<BatchError>, ghost succ: seq<nat>, lastRetry: bool, noRetry: bool,
               ghost after: LoopView, ghost completed: seq<Task>)
      requires inProgress != [] && results.Length == |rows| && nb.Length == |rows|
      requires cache.Valid()
      requires s == View(nb) && Looping(Batch(), s, errors0, succ0, original, lastRetry0, noRetry0)
      requires Justified(Batch(), s, errors0, noRetry0)
      requires cfg.useServerTracker ==> StrictlyIncreasing(env.clock)
      requires completions == n0 + |completed0| && CacheFollows(cache.State(), c0, table, rows, completed0, env, n0)
      modifies this, results, cache, nb, errorsByServer
      ensures cache.Valid() && cache.prefetchDisabled == old(cache.prefetchDisabled)
      ensures completions == n0 + |completed| && CacheFollows(cache.State(), c0, table, rows, completed, env, n0)
      ensures old(errorsByServer) != null ==> errorsByServer == old(errorsByServer)
      ensures old(errorsByServer) == null && errorsByServer != null ==> fresh(errorsByServer)
      ensures after == View(nb)
      ensures ok ==> Looping(Batch(), after, errors, succ, original, lastRetry, noRetry)
      ensures ok ==> Justified(Batch(), after, errors, noRetry)
      ensures ok ==>
        Below(Stage(noRetry), Untracked(Batch(), after.books.retry, noRetry),
              RetryRank(Batch(), after.books.retry, noRetry), |after.inProgress|,
              Stage(noRetry0), Untracked(Batch(), s.books.retry, noRetry0),
              RetryRank(Batch(), s.books.retry, noRetry0), |s.inProgress|)
      ensures !ok ==> Budget(Batch(), after.books.retry, lastRetry, true)
      ensures !ok ==> forall i :: 0 <= i < |rows| && rows[i].None? ==> results[i] == original[i]
      ensures !ok ==> LastSubmitMissed(rows, env.locate, submits)
      ensures Locatable(rows, env.locate) ==> ok
    {
      TasksSendable(Batch(), s, errors0, succ0, original, lastRetry0, noRetry0);
      assert forall i :: 0 <= i < nb.Length ==> 0 <= nb[i] by {
        assert s.books.retry.nbRetries == nb[..];
      }
      ok, errors, lastRetry, noRetry, completed := Round(nb, errors0, lastRetry0, noRetry0, c0, n0, completed0);
      succ := succ0 + PassSuccesses(Batch(), s, noRetry0);
      after := View(nb);
      PassOutcome(Batch(), s, errors0, succ0, original, lastRetry0, noRetry0, after, errors, lastRetry, noRetry, ok);
    }

    /**
     * The main loop of processBatchCallback: passes until nothing is in
     * flight, or until a retried row cannot be located.  The requests
     * completed, in the order they completed, are given back as completed.
     */
    method Passes(nb: array<int>, ghost original: seq<Option<Reply>>, errors0: seq<BatchError>, ghost succ0: seq<nat>,
                  lastRetry0: bool, noRetry0: bool)
      returns (ok: bool, errors: seq<BatchError>, ghost succ: seq<nat>, lastRetry: bool, noRetry: bool,
               ghost completed: seq<Task>)
      requires results.Length == |rows| && nb.Length == |rows|
      requires cache.Valid()
      requires Looping(Batch(), View(nb), errors0, succ0, original, lastRetry0, noRetry0)
      requires Justified(Batch(), View(nb), errors0, noRetry0)
      requires cfg.useServerTracker ==> StrictlyIncreasing(env.clock)
      modifies this, results, cache, nb, errorsByServer
      ensures cache.Valid() && cache.prefetchDisabled == old(cache.prefetchDisabled)
      ensures completions == old(completions) + |completed|
      ensures TasksSendableAll(rows, completed)
      ensures cache.State() == CacheAfterTasks(old(cache.State()), table, rows, completed, env, old(completions))
      ensures old(errorsByServer) != null ==> errorsByServer == old(errorsByServer)
      ensures old(errorsByServer) == null && errorsByServer != null ==> fresh(errorsByServer)
      ensures ok ==> inProgress == [] && Looping(Batch(), View(nb), errors, succ, original, lastRetry, noRetry)
      ensures ok ==> Justified(Batch(), View(nb), errors, noRetry)
      ensures !ok ==> Budget(Batch(), View(nb).books.retry, lastRetry, true)
      ensures !ok ==> forall i :: 0 <= i < |rows| && rows[i].None? ==> results[i] == original[i]
      ensures !ok ==> LastSubmitMissed(rows, env.locate, submits)
      ensures Locatable(rows, env.locate) ==> ok
    {
      succ, completed := succ0, [];
      ghost var c0, n0 := cache.State(), completions;
      errors, lastRetry, noRetry := errors0, lastRetry0, noRetry0;
      ok := true;
      while inProgress != []
        invariant cache.Valid() && cache.prefetchDisabled == old(cache.prefetchDisabled)
        invariant completions == n0 + |completed|
        invariant CacheFollows(cache.State(), c0, table, rows, completed, env, n0)
        invariant old(errorsByServer) != null ==> errorsByServer == old(errorsByServer)
        invariant old(errorsByServer) == null && errorsByServer != null ==> fresh(errorsByServer)
        invariant Looping(Batch(), View(nb), errors, succ, original, lastRetry, noRetry)
        invariant Justified(Batch(), View(nb), errors, noRetry)
        decreases Stage(noRetry), Untracked(Batch(), View(nb).books.retry, noRetry),
                  RetryRank(Batch(), View(nb).books.retry, noRetry), |inProgress|
      {
        ghost var after;
        ok, errors, succ, lastRetry, noRetry, after, completed :=
          Pass(nb, View(nb), original, errors, succ, lastRetry, noRetry, c0, n0, completed);
        if !ok {
          return;
        }
      }
    }

    /**
     * The main loop of processBatchCallback and its outcome: with nothing
     * in flight, Done without errors and RetriesExhausted with them.
     */
    method Drain(nb: array<int>, ghost original: seq<Option<Reply>>, errors0: seq<BatchError>, ghost succ0: seq<nat>,
                 lastRetry0: bool, noRetry0: bool)
      returns (outcome: BatchOutcome, ghost succ: seq<nat>, ghost completed: seq<Task>)
      requires results.Length == |rows| && nb.Length == |rows|
      requires cache.Valid()
      requires Looping(Batch(), View(nb), errors0, succ0, original, lastRetry0, noRetry0)
      requires Justified(Batch(), View(nb), errors0, noRetry0)
      requires cfg.useServerTracker ==> StrictlyIncreasing(env.clock)
      modifies this, results, cache, nb, errorsByServer
      ensures cache.Valid() && cache.prefetchDisabled == old(cache.prefetchDisabled)
      ensures completions == old(completions) + |completed|
      ensures TasksSendableAll(rows, completed)
      ensures cache.State() == CacheAfterTasks(old(cache.State()), table, rows, completed, env, old(completions))
      ensures old(errorsByServer) != null ==> errorsByServer == old(errorsByServer)
      ensures old(errorsByServer) == null && errorsByServer != null ==> fresh(errorsByServer)
      ensures RetriesBounded(Batch(), nb[..])
      ensures forall i :: 0 <= i < |rows| && rows[i].None? ==> results[i] == original[i]
      ensures outcome == NoLocation || outcome == Done || outcome.RetriesExhausted?
      ensures outcome == NoLocation ==> LastSubmitMissed(rows, env.locate, submits)
      ensures Locatable(rows, env.locate) ==> outcome != NoLocation
      ensures outcome.Done? ==> Finished(Batch(), results[..], callbackLog, [], succ)
      ensures outcome.RetriesExhausted? ==> outcome.errors != [] && Finished(Batch(), results[..], callbackLog, outcome.errors, succ)
      ensures outcome.RetriesExhausted? ==> ErrorsJustified(Batch(), completions, nb[..], Tracker(), ticks, outcome.errors)
    {
      var ok, errors, lastRetry, noRetry;
      ok, errors, succ, lastRetry, noRetry, completed := Passes(nb, original, errors0, succ0, lastRetry0, noRetry0);
      if !ok {
        BudgetBounds(Batch(), View(nb).books.retry, lastRetry, true);
        return NoLocation, succ, completed;
      }
      BudgetBounds(Batch(), View(nb).books.retry, lastRetry, noRetry);
      Closing(Batch(), View(nb), errors, succ, original, lastRetry, noRetry);
      outcome := if errors == [] then Done else RetriesExhausted(errors);
    }

    /**
     * processBatchCallback: send every row, then take the completed
     * requests one at a time, analyse their answers and send the retried
     * actions again, until nothing is in flight.  Every action then ends
     * as a success, whose answer is in results and which went to the
     * callback, or as an error of RetriesExhausted; without tracker each
     * action is retried fewer than numTries times.
     */
    method ProcessBatchCallback()
      returns (outcome: BatchOutcome, ghost succeeded: seq<nat>, ghost retries: seq<int>, ghost completed: seq<Task>)
      requires cache.Valid()
      requires toReplay == [] && inProgress == [] && errorsByServer == null && curNumRetries == 0 && callbackLog == []
      requires cfg.useServerTracker ==> StrictlyIncreasing(env.clock)
      modifies this, results, cache
      ensures cache.Valid() && cache.prefetchDisabled == old(cache.prefetchDisabled)
      ensures completions == old(completions) + |completed|
      ensures TasksSendableAll(rows, completed)
      ensures cache.State() == CacheAfterTasks(old(cache.State()), table, rows, completed, env, old(completions))
      ensures OtherTablesKept(old(cache.State()), cache.State(), table)
      ensures outcome == IllegalArgument <==> results.Length != |rows|
      ensures outcome == IllegalArgument ==> results[..] == old(results[..]) && submits == old(submits)
      ensures rows == [] && results.Length == 0 ==> outcome == Done && submits == old(submits)
      ensures results.Length == |rows| ==> forall i :: 0 <= i < |rows| && rows[i].None? ==> results[i] == old(results[i])
      ensures outcome == NoLocation ==> LastSubmitMissed(rows, env.locate, submits)
      ensures results.Length == |rows| && Locatable(rows, env.locate) ==> outcome != NoLocation
      ensures outcome.Done? ==> Finished(Batch(), results[..], callbackLog, [], succeeded)
      ensures outcome.RetriesExhausted? ==> outcome.errors != [] && Finished(Batch(), results[..], callbackLog, outcome.errors, succeeded)
      ensures outcome.RetriesExhausted? ==> ErrorsJustified(Batch(), completions, retries, Tracker(), ticks, outcome.errors)
      ensures outcome != IllegalArgument ==> RetriesBounded(Batch(), retries)
    {
      succeeded, retries, completed := [], [], [];
      if results.Length != |rows| {
        return IllegalArgument, succeeded, retries, completed;
      }
      if |rows| == 0 {
        return Done, succeeded, retries, completed;
      }
      outcome, succeeded, retries, completed := Run();
    }

    /** processBatchCallback past its argument checks: a non-empty batch with one cell per row. */
    method Run() returns (outcome: BatchOutcome, ghost succeeded: seq<nat>, ghost retries: seq<int>, ghost completed: seq<Task>)
      requires results.Length == |rows| && |rows| > 0
      requires cache.Valid()
      requires toReplay == [] && inProgress == [] && errorsByServer == null && curNumRetries == 0 && callbackLog == []
      requires cfg.useServerTracker ==> StrictlyIncreasing(env.clock)
      modifies this, results, cache
      ensures cache.Valid() && cache.prefetchDisabled == old(cache.prefetchDisabled)
      ensures completions == old(completions) + |completed|
      ensures TasksSendableAll(rows, completed)
      ensures cache.State() == CacheAfterTasks(old(cache.State()), table, rows, completed, env, old(completions))
      ensures OtherTablesKept(old(cache.State()), cache.State(), table)
      ensures outcome == NoLocation || outcome == Done || outcome.RetriesExhausted?
      ensures outcome == NoLocation ==> LastSubmitMissed(rows, env.locate, submits)
      ensures Locatable(rows, env.locate) ==> outcome != NoLocation
      ensures forall i :: 0 <= i < |rows| && rows[i].None? ==> results[i] == old(results[i])
      ensures outcome.Done? ==> Finished(Batch(), results[..], callbackLog, [], succeeded)
      ensures outcome.RetriesExhausted? ==> outcome.errors != [] && Finished(Batch(), results[..], callbackLog, outcome.errors, succeeded)
      ensures outcome.RetriesExhausted? ==> ErrorsJustified(Batch(), completions, retries, Tracker(), ticks, outcome.errors)
      ensures RetriesBounded(Batch(), retries)
    {
      ghost var original := results[..];
      var nb := new int[|rows|](_ => 0);
      var ok := Submit(Range(|rows|), false);
      if !ok {
        Missed(rows, Range(|rows|), env.locate, old(submits));
        return NoLocation, [], nb[..], [];
      }
      assert inProgress[|old(inProgress)|..] == inProgress;
      Started(Batch(), View(nb), original);
      outcome, succeeded, completed := Drain(nb, original, [], [], false, cfg.numTries < 2);
      retries := nb[..];
    }
  }
}
