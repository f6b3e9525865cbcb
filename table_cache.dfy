/**
 * The allow-list cache of the data source provider as a state machine over
 * (cached tables, last refresh), with clock readings as integer ticks
 * (100 ns, as `DateTime.Ticks`) and the file read as its load outcome.
 */
module TableCache {
  import opened Wrappers
  import opened AllowList

  const TicksPerMinute: int := 600_000_000
  /** `_cacheTimeout`: five minutes. */
  const CacheTimeout: int := 5 * TicksPerMinute
  /** `DateTime.MinValue`, the initial `_lastCacheRefresh`. */
  const MinValueTicks: int := 0

  /** `_cachedTables` (null when `None`) and `_lastCacheRefresh`. */
  datatype CacheState = CacheState(cachedTables: Option<seq<TableInfo>>, lastCacheRefresh: int)

  const InitialState := CacheState(None, MinValueTicks)

  /** The freshness test both checks use: a list is cached and it was loaded less than five minutes ago. */
  predicate IsFresh(s: CacheState, now: int): (r: bool)
    ensures r <==> s.cachedTables.Some? && (now - s.lastCacheRefresh) / TicksPerMinute < 5
    ensures s.cachedTables.Some? && now <= s.lastCacheRefresh ==> r
  {
    s.cachedTables.Some? && now - s.lastCacheRefresh < CacheTimeout
  }

  /**
   * What one pass through the cache does: the new state, the returned list
   * (null when `None`), and whether the call attempted a load, that is, got
   * past both freshness checks (a missing file is then checked for, not read).
   */
  datatype CallResult = CallResult(state: CacheState, tables: Option<seq<TableInfo>>, attemptedLoad: bool)

  /**
   * The section under `_cacheLock`: re-check freshness, otherwise read the
   * file. A successful parse, `null` included, replaces the state wholesale
   * and stamps it with `now`; a missing file or a parse failure returns null
   * and leaves the state as it was.
   */
  function LockedRefresh(s: CacheState, now: int, load: AllowListLoad): (r: CallResult)
    ensures IsFresh(s, now) ==> r == CallResult(s, s.cachedTables, false)
    ensures !IsFresh(s, now) ==> r.attemptedLoad
    ensures r.tables.Some? ==> r.tables == r.state.cachedTables
    ensures r.state != s ==> r.attemptedLoad && r.state.lastCacheRefresh == now &&
                             r.state.cachedTables == (if load.Loaded? then Some(load.tables) else None)
    ensures r.attemptedLoad && (load.Missing? || load.ParseError?) ==> r.state == s && r.tables == None
    ensures r.attemptedLoad && !(load.Missing? || load.ParseError?) ==>
      r.state == CacheState(if load.Loaded? then Some(load.tables) else None, now) && r.tables == r.state.cachedTables
    ensures r.attemptedLoad && load.Loaded? ==> r.tables == Some(load.tables) && IsFresh(r.state, now)
  {
    if IsFresh(s, now) then CallResult(s, s.cachedTables, false)
    else match load
      case Missing => CallResult(s, None, true)
      case ParseError => CallResult(s, None, true)
      case LoadedNull => CallResult(CacheState(None, now), None, true)
      case Loaded(tables) => CallResult(CacheState(Some(tables), now), Some(tables), true)
  }

  /** `GetTablesWithCaching`: the unsynchronised fast path, then the locked section. */
  function GetTablesWithCaching(s: CacheState, now: int, load: AllowListLoad): (r: CallResult)
    ensures IsFresh(s, now) ==> r == CallResult(s, s.cachedTables, false)
  {
    if IsFresh(s, now) then CallResult(s, s.cachedTables, false)
    else LockedRefresh(s, now, load)
  }

  /** For calls one after another, the fast path never changes an answer: the locked re-check alone decides. */
  lemma FastPathIsOnlyAShortcut(s: CacheState, now: int, load: AllowListLoad)
    ensures GetTablesWithCaching(s, now, load) == LockedRefresh(s, now, load)
  {
  }

  /** One call: the clock reading and what reading the file would yield at that moment. */
  datatype Call = Call(now: int, load: AllowListLoad)

  /** The outcome of a sequence of calls: final state, each call's returned list, and the number of load attempts. */
  datatype RunResult = RunResult(state: CacheState, results: seq<Option<seq<TableInfo>>>, loadAttempts: nat)

  /**
   * Calls to `GetTablesWithCaching` one after another. A driver: its own
   * contract gives only the shape of the result; the lemmas below state what
   * a run does.
   */
  function Run(s: CacheState, calls: seq<Call>): (r: RunResult)
    ensures |r.results| == |calls|
    ensures r.loadAttempts <= |calls|
    decreases |calls|
  {
    if calls == [] then RunResult(s, [], 0)
    else
      var first := GetTablesWithCaching(s, calls[0].now, calls[0].load);
      var rest := Run(first.state, calls[1..]);
      RunResult(rest.state, [first.tables] + rest.results, rest.loadAttempts + if first.attemptedLoad then 1 else 0)
  }

  /**
   * Idempotence: while the cached list is fresh, any number of calls attempt
   * no load, change nothing and all return the cached list.
   */
  lemma {:induction false} NoReloadWithinWindow(s: CacheState, calls: seq<Call>)
    requires s.cachedTables.Some?
    requires forall i :: 0 <= i < |calls| ==> calls[i].now - s.lastCacheRefresh < CacheTimeout
    ensures Run(s, calls).state == s
    ensures Run(s, calls).loadAttempts == 0
    ensures forall i :: 0 <= i < |calls| ==> Run(s, calls).results[i] == s.cachedTables
  {
    if calls != [] {
      NoReloadWithinWindow(s, calls[1..]);
    }
  }

  /** A successful load is served, unread, to every call in the next five minutes. */
  lemma {:induction false} LoadServesWindow(s: CacheState, now: int, tables: seq<TableInfo>, later: seq<Call>)
    requires !IsFresh(s, now)
    requires forall i :: 0 <= i < |later| ==> later[i].now - now < CacheTimeout
    ensures var r := Run(s, [Call(now, Loaded(tables))] + later);
      && r.loadAttempts == 1
      && r.state == CacheState(Some(tables), now)
      && forall i :: 0 <= i < |r.results| ==> r.results[i] == Some(tables)
  {
    var calls := [Call(now, Loaded(tables))] + later;
    assert calls[1..] == later;
    NoReloadWithinWindow(CacheState(Some(tables), now), later);
  }

  /** Failed reads never touch the state, however many calls and whatever the clock says. */
  lemma {:induction false} FailuresKeepState(s: CacheState, calls: seq<Call>)
    requires forall i :: 0 <= i < |calls| ==> calls[i].load.Missing? || calls[i].load.ParseError?
    ensures Run(s, calls).state == s
  {
    if calls != [] {
      FailuresKeepState(s, calls[1..]);
    }
  }

  /**
   * A file that deserialises to `null` empties the cache: the call returns
   * null, and the next call loads again, however soon it comes.
   */
  lemma NullLoadEmptiesCache(s: CacheState, now: int, next: Call)
    requires !IsFresh(s, now)
    ensures var r := Run(s, [Call(now, LoadedNull), next]);
      && r.results[0] == None
      && r.loadAttempts == 2
      && r.state == GetTablesWithCaching(CacheState(None, now), next.now, next.load).state
  {
    var calls := [Call(now, LoadedNull), next];
    assert calls[1..] == [next];
    assert [next][1..] == [];
    var emptied := CacheState(None, now);
    assert Run(s, calls).state == Run(emptied, [next]).state;
    assert Run(emptied, [next]).state == Run(GetTablesWithCaching(emptied, next.now, next.load).state, []).state;
  }

  /**
   * A stale list is not served when the reload fails: the call returns null
   * even though a previous list is still cached, and the next call reads the
   * file again.
   */
  lemma StaleFailureReturnsNull(s: CacheState, now: int, load: AllowListLoad, later: int)
    requires s.cachedTables.Some? && !IsFresh(s, now) && (load.Missing? || load.ParseError?)
    requires later >= now
    ensures var r := GetTablesWithCaching(s, now, load);
      r.tables == None && r.state == s && !IsFresh(r.state, later)
  {
  }

  /**
   * Callers that all found the list stale and then take the lock in turn at
   * the same instant: each runs the locked section on the state the previous
   * one left. A driver, like `Run`: the lemmas below state what a queue does.
   */
  function LockQueue(s: CacheState, now: int, loads: seq<AllowListLoad>): (r: RunResult)
    ensures |r.results| == |loads|
    decreases |loads|
  {
    if loads == [] then RunResult(s, [], 0)
    else
      var first := LockedRefresh(s, now, loads[0]);
      var rest := LockQueue(first.state, now, loads[1..]);
      RunResult(rest.state, [first.tables] + rest.results, rest.loadAttempts + if first.attemptedLoad then 1 else 0)
  }

  /** Behind a fresh list, queued callers read nothing and all get that list. */
  lemma {:induction false} QueueBehindFreshList(s: CacheState, now: int, loads: seq<AllowListLoad>)
    requires IsFresh(s, now)
    ensures LockQueue(s, now, loads).loadAttempts == 0
    ensures LockQueue(s, now, loads).state == s
    ensures forall i :: 0 <= i < |loads| ==> LockQueue(s, now, loads).results[i] == s.cachedTables
  {
    if loads != [] {
      QueueBehindFreshList(s, now, loads[1..]);
    }
  }

  /**
   * The double check: of any number of callers that raced past the fast path,
   * only the first reads the file when that read succeeds; the rest reuse its list.
   */
  lemma {:induction false} RacingCallersReloadOnce(s: CacheState, now: int, loads: seq<AllowListLoad>)
    requires !IsFresh(s, now)
    requires loads != [] && loads[0].Loaded?
    ensures LockQueue(s, now, loads).loadAttempts == 1
    ensures forall i :: 0 <= i < |loads| ==> LockQueue(s, now, loads).results[i] == Some(loads[0].tables)
  {
    var first := LockedRefresh(s, now, loads[0]);
    QueueBehindFreshList(first.state, now, loads[1..]);
  }
}
