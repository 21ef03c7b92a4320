/**
 * `StatsManager`: cumulative counters seeded from a persisted snapshot,
 * bumped per redacted request, and written back once the flush interval has
 * passed. The clock is an integer parameter and the file is abstract: what
 * loading found is an input, whether a write succeeded is an input, and the
 * manager keeps the snapshot it last wrote.
 */
module Stats {
  import opened Wrappers
  import DlpEngine

  /** The counters of `current_stats`. */
  datatype Counters = Counters(
    totalRequests: int,
    totalRedacted: int,
    staticReplacements: int,
    mlReplacements: int,
    totalTime: real,
    activeConnections: int,
    upstreamHosts: map<string, int>)

  /** The counters a manager starts from before any snapshot is applied. */
  const Zero: Counters := Counters(0, 0, 0, 0, 0.0, 0, map[])

  /** A persisted snapshot, holding some of the counter keys (an absent key is `None`). */
  datatype Snapshot = Snapshot(
    totalRequests: Option<int>,
    totalRedacted: Option<int>,
    staticReplacements: Option<int>,
    mlReplacements: Option<int>,
    totalTime: Option<real>,
    activeConnections: Option<int>,
    upstreamHosts: Option<map<string, int>>)

  /** What `json.dump` writes: every counter key. */
  function Persist(c: Counters): Snapshot {
    Snapshot(Some(c.totalRequests), Some(c.totalRedacted), Some(c.staticReplacements),
      Some(c.mlReplacements), Some(c.totalTime), Some(c.activeConnections), Some(c.upstreamHosts))
  }

  /** The `for k, v in saved_stats.items(): current_stats[k] = v` loop. */
  function Overlay(base: Counters, saved: Snapshot): Counters {
    Counters(
      saved.totalRequests.GetOr(base.totalRequests),
      saved.totalRedacted.GetOr(base.totalRedacted),
      saved.staticReplacements.GetOr(base.staticReplacements),
      saved.mlReplacements.GetOr(base.mlReplacements),
      saved.totalTime.GetOr(base.totalTime),
      saved.activeConnections.GetOr(base.activeConnections),
      saved.upstreamHosts.GetOr(base.upstreamHosts))
  }

  /**
   * `StatsManager`: where it persists, how often, the counters, when it last
   * flushed, and the snapshot it last wrote to the stats file (`None` until
   * its first successful flush).
   */
  datatype StatsManager = StatsManager(
    statsFile: string,
    flushInterval: int,
    current: Counters,
    lastFlush: int,
    written: Option<Snapshot>)

  /** The constructor's default flush interval, in clock units. */
  const DefaultFlushInterval: int := 1

  /** What `_load_stats` found: no file, a file it could not read or parse, or a snapshot. */
  datatype SavedStats = NoFile | Unreadable | Loaded(snapshot: Snapshot)

  /** Each counter of `c` is the snapshot's value where the snapshot holds that key, and `base`'s otherwise. */
  predicate TakesHeldKeys(c: Counters, base: Counters, saved: Snapshot) {
    && c.totalRequests == (if saved.totalRequests.Some? then saved.totalRequests.value else base.totalRequests)
    && c.totalRedacted == (if saved.totalRedacted.Some? then saved.totalRedacted.value else base.totalRedacted)
    && c.staticReplacements ==
         (if saved.staticReplacements.Some? then saved.staticReplacements.value else base.staticReplacements)
    && c.mlReplacements == (if saved.mlReplacements.Some? then saved.mlReplacements.value else base.mlReplacements)
    && c.totalTime == (if saved.totalTime.Some? then saved.totalTime.value else base.totalTime)
    && c.activeConnections ==
         (if saved.activeConnections.Some? then saved.activeConnections.value else base.activeConnections)
    && c.upstreamHosts == (if saved.upstreamHosts.Some? then saved.upstreamHosts.value else base.upstreamHosts)
  }

  /** `__init__` followed by `_load_stats`: zero counters, overridden by the keys a snapshot holds. */
  function Init(statsFile: string, flushInterval: int, now: int, saved: SavedStats): (m: StatsManager)
    ensures m.statsFile == statsFile && m.flushInterval == flushInterval && m.lastFlush == now
    ensures m.written == None
    ensures !saved.Loaded? ==> m.current == Zero
    ensures saved.Loaded? ==> TakesHeldKeys(m.current, Zero, saved.snapshot)
  {
    var current := if saved.Loaded? then Overlay(Zero, saved.snapshot) else Zero;
    StatsManager(statsFile, flushInterval, current, now, None)
  }

  /**
   * `Init` as evidently intended: the snapshot restores the cumulative
   * counters, but no request is in flight when the manager starts, so the
   * active-connection count starts at zero whatever the snapshot holds.
   */
  function InitIdle(statsFile: string, flushInterval: int, now: int, saved: SavedStats): (m: StatsManager)
    ensures m.statsFile == statsFile && m.flushInterval == flushInterval && m.lastFlush == now
    ensures m.written == None
    ensures m.current.activeConnections == 0
    ensures !saved.Loaded? ==> m.current == Zero
    ensures saved.Loaded? ==> TakesHeldKeys(m.current, Zero, saved.snapshot.(activeConnections := None))
  {
    var m := Init(statsFile, flushInterval, now, saved);
    m.(current := m.current.(activeConnections := 0))
  }

  /**
   * A snapshot overrides exactly the keys it holds and every other key keeps
   * its prior value; so an empty snapshot changes nothing, and applying a
   * snapshot twice is applying it once.
   */
  lemma OverlayOverridesHeldKeys(base: Counters, saved: Snapshot)
    ensures TakesHeldKeys(Overlay(base, saved), base, saved)
    ensures saved == Snapshot(None, None, None, None, None, None, None) ==> Overlay(base, saved) == base
    ensures Overlay(base, Persist(Overlay(base, saved))) == Overlay(base, saved)
    ensures Overlay(Overlay(base, saved), saved) == Overlay(base, saved)
  {
  }


  // ---------------------------------------------------------------------
  // update
  // ---------------------------------------------------------------------

  /** `request_stats.get(key, 0)`. */
  function CountOf(stats: map<string, int>, key: string): int {
    if key in stats then stats[key] else 0
  }

  /** Whether `upstream_host` is truthy: given and not the empty string. */
  predicate HostGiven(host: Option<string>) {
    host.Some? && host.value != ""
  }

  /** Creates the host's entry at 0 if needed, then adds one to it. */
  function CountHost(hosts: map<string, int>, host: string): (r: map<string, int>)
    ensures r.Keys == hosts.Keys + {host}
    ensures r[host] == CountOf(hosts, host) + 1
    ensures forall h :: h in hosts && h != host ==> r[h] == hosts[h]
  {
    var created := if host !in hosts then hosts[host := 0] else hosts;
    created[host := created[host] + 1]
  }

  /** A flush is due when strictly more than the interval has passed since the last one. */
  predicate FlushDue(m: StatsManager, now: int) {
    now - m.lastFlush > m.flushInterval
  }

  /** Whether writing the snapshot succeeded, and the clock reading taken after it did. */
  datatype FlushResult = Written(at: int) | WriteFailed

  /**
   * `flush`: the counters are written, every key of them; only a successful
   * write moves `last_flush`.
   */
  function Flush(m: StatsManager, result: FlushResult): (r: StatsManager)
    ensures r.current == m.current && r.statsFile == m.statsFile && r.flushInterval == m.flushInterval
    ensures result.Written? ==> r.lastFlush == result.at && r.written == Some(Persist(m.current))
    ensures result.WriteFailed? ==> r == m
  {
    match result
    case Written(at) => m.(lastFlush := at, written := Some(Persist(m.current)))
    case WriteFailed => m
  }

  /**
   * A manager started from what a flush wrote holds exactly the counters
   * that were flushed.
   */
  lemma LoadRestoresFlushed(m: StatsManager, at: int, statsFile: string, flushInterval: int, now: int)
    ensures Flush(m, Written(at)).written.Some?
    ensures Init(statsFile, flushInterval, now, Loaded(Flush(m, Written(at)).written.value)).current == m.current
  {
  }

  /**
   * `update`: one more request and one more redaction, the request's two
   * replacement counts (missing as 0), its duration, and its host if given;
   * then a flush if one is due.
   */
  function Update(m: StatsManager, requestStats: map<string, int>, duration: real,
                  host: Option<string>, now: int, flush: FlushResult): (r: StatsManager)
    ensures r.current.totalRequests == m.current.totalRequests + 1
    ensures r.current.totalRedacted == m.current.totalRedacted + 1
    ensures r.current.staticReplacements ==
              m.current.staticReplacements + CountOf(requestStats, DlpEngine.StaticReplacements)
    ensures r.current.mlReplacements ==
              m.current.mlReplacements + CountOf(requestStats, DlpEngine.MlReplacements)
    ensures r.current.totalTime == m.current.totalTime + duration
    ensures r.current.activeConnections == m.current.activeConnections
    ensures HostGiven(host) ==>
              && r.current.upstreamHosts.Keys == m.current.upstreamHosts.Keys + {host.value}
              && r.current.upstreamHosts[host.value] == CountOf(m.current.upstreamHosts, host.value) + 1
              && forall h :: h in m.current.upstreamHosts && h != host.value ==>
                   r.current.upstreamHosts[h] == m.current.upstreamHosts[h]
    ensures !HostGiven(host) ==> r.current.upstreamHosts == m.current.upstreamHosts
    ensures r.lastFlush != m.lastFlush || r.written != m.written ==> FlushDue(m, now) && flush.Written?
    ensures FlushDue(m, now) && flush.Written? ==> r.lastFlush == flush.at && r.written == Some(Persist(r.current))
    ensures r.statsFile == m.statsFile && r.flushInterval == m.flushInterval
  {
    var c := m.current;
    var recorded := c.(
      totalRequests := c.totalRequests + 1,
      totalRedacted := c.totalRedacted + 1,
      staticReplacements := c.staticReplacements + CountOf(requestStats, DlpEngine.StaticReplacements),
      mlReplacements := c.mlReplacements + CountOf(requestStats, DlpEngine.MlReplacements),
      totalTime := c.totalTime + duration,
      upstreamHosts := if HostGiven(host) then CountHost(c.upstreamHosts, host.value) else c.upstreamHosts);
    var m' := m.(current := recorded);
    if FlushDue(m', now) then Flush(m', flush) else m'
  }

  /** The arguments of one `update` call, with the clock reading and the flush outcome. */
  datatype UpdateCall = UpdateCall(
    requestStats: map<string, int>, duration: real, host: Option<string>, now: int, flush: FlushResult)

  /** A run of `update` calls, in order. */
  function UpdateAll(m: StatsManager, calls: seq<UpdateCall>): StatsManager
    decreases |calls|
  {
    if calls == [] then m
    else
      var c := calls[0];
      UpdateAll(Update(m, c.requestStats, c.duration, c.host, c.now, c.flush), calls[1..])
  }

  /** How many of the calls name `host`. */
  function Occurrences(calls: seq<UpdateCall>, host: string): nat
    decreases |calls|
  {
    if calls == [] then 0
    else (if calls[0].host == Some(host) then 1 else 0) + Occurrences(calls[1..], host)
  }

  /**
   * Over any run of updates both totals grow by the number of calls, so their
   * difference never changes, and the active count is untouched.
   */
  lemma {:induction false} UpdatesKeepTotalsInStep(m: StatsManager, calls: seq<UpdateCall>)
    ensures UpdateAll(m, calls).current.totalRequests == m.current.totalRequests + |calls|
    ensures UpdateAll(m, calls).current.totalRedacted == m.current.totalRedacted + |calls|
    ensures UpdateAll(m, calls).current.activeConnections == m.current.activeConnections
    decreases |calls|
  {
    if calls != [] {
      var c := calls[0];
      UpdatesKeepTotalsInStep(Update(m, c.requestStats, c.duration, c.host, c.now, c.flush), calls[1..]);
    }
  }

  /** Over any run of updates each non-empty host's count grows by the number of calls naming it. */
  lemma {:induction false} HostCountsTally(m: StatsManager, calls: seq<UpdateCall>, host: string)
    requires host != ""
    ensures CountOf(UpdateAll(m, calls).current.upstreamHosts, host) ==
              CountOf(m.current.upstreamHosts, host) + Occurrences(calls, host)
    decreases |calls|
  {
    if calls != [] {
      var c := calls[0];
      var m' := Update(m, c.requestStats, c.duration, c.host, c.now, c.flush);
      HostCountsTally(m', calls[1..], host);
    }
  }

  // ---------------------------------------------------------------------
  // The active-connection gauge
  // ---------------------------------------------------------------------

  /** `increment_active`. */
  function IncrementActive(m: StatsManager): (r: StatsManager)
    ensures r.current.activeConnections == m.current.activeConnections + 1
    ensures r == m.(current := r.current) && r.current == m.current.(activeConnections := r.current.activeConnections)
  {
    m.(current := m.current.(activeConnections := m.current.activeConnections + 1))
  }

  /** `decrement_active`: subtracts one only from a positive count. */
  function DecrementActive(m: StatsManager): (r: StatsManager)
    ensures m.current.activeConnections >= 0 ==> r.current.activeConnections >= 0
    ensures m.current.activeConnections > 0 ==> r.current.activeConnections == m.current.activeConnections - 1
    ensures m.current.activeConnections <= 0 ==> r == m
    ensures r == m.(current := r.current) && r.current == m.current.(activeConnections := r.current.activeConnections)
  {
    if m.current.activeConnections > 0 then
      m.(current := m.current.(activeConnections := m.current.activeConnections - 1))
    else m
  }

  /**
   * An update between an increment and a decrement leaves the counters and
   * the flush time as the update alone would. The snapshot it writes,
   * though, is taken while the request is still counted as active, so it
   * holds one connection more than the live count ends with.
   */
  lemma UpdateInsideGauge(m: StatsManager, requestStats: map<string, int>, duration: real,
                          host: Option<string>, now: int, flush: FlushResult)
    requires m.current.activeConnections >= 0
    ensures
      var inside := DecrementActive(Update(IncrementActive(m), requestStats, duration, host, now, flush));
      var alone := Update(m, requestStats, duration, host, now, flush);
      && inside.current == alone.current
      && inside.lastFlush == alone.lastFlush
      && inside.written ==
           if FlushDue(m, now) && flush.Written? then
             Some(Persist(alone.current.(activeConnections := alone.current.activeConnections + 1)))
           else m.written
  {
  }

  /**
   * As written, a manager restarted from the snapshot an update wrote while
   * its request was in flight starts with that request still counted: one
   * connection more than the live count after the request closed.
   */
  lemma RestartCountsInFlightRequest(m: StatsManager, requestStats: map<string, int>, duration: real,
                                     host: Option<string>, now: int, at: int, later: int)
    requires m.current.activeConnections >= 0 && FlushDue(m, now)
    ensures
      var inside := DecrementActive(Update(IncrementActive(m), requestStats, duration, host, now, Written(at)));
      && inside.current.activeConnections == m.current.activeConnections
      && inside.written.Some?
      && Init(m.statsFile, m.flushInterval, later, Loaded(inside.written.value)).current.activeConnections ==
           m.current.activeConnections + 1
  {
    UpdateInsideGauge(m, requestStats, duration, host, now, Written(at));
  }

  /** With the intended start, the same restart begins with no connection counted. */
  lemma RestartIdleIgnoresInFlightRequest(m: StatsManager, requestStats: map<string, int>, duration: real,
                                          host: Option<string>, now: int, at: int, later: int)
    requires m.current.activeConnections >= 0 && FlushDue(m, now)
    ensures
      var inside := DecrementActive(Update(IncrementActive(m), requestStats, duration, host, now, Written(at)));
      && inside.written.Some?
      && var restarted := InitIdle(m.statsFile, m.flushInterval, later, Loaded(inside.written.value));
      && restarted.current.activeConnections == 0
      && restarted.current.totalRequests == inside.current.totalRequests
      && restarted.current.totalRedacted == inside.current.totalRedacted
      && restarted.current.upstreamHosts == inside.current.upstreamHosts
  {
    UpdateInsideGauge(m, requestStats, duration, host, now, Written(at));
  }

  /** A decrement undoes an increment whenever the count was not negative. */
  lemma IncrementThenDecrement(m: StatsManager)
    requires m.current.activeConnections >= 0
    ensures DecrementActive(IncrementActive(m)) == m
  {
  }

  /** A run of gauge changes: `true` increments, `false` decrements. */
  function ApplyActive(m: StatsManager, ops: seq<bool>): StatsManager
    decreases |ops|
  {
    if ops == [] then m
    else ApplyActive(if ops[0] then IncrementActive(m) else DecrementActive(m), ops[1..])
  }

  /** How many increments a run of gauge changes holds. */
  function Increments(ops: seq<bool>): nat
    decreases |ops|
  {
    if ops == [] then 0 else (if ops[0] then 1 else 0) + Increments(ops[1..])
  }

  /**
   * From a non-negative count, no order of increments and decrements drives
   * the gauge below zero, nor above the start plus the increments made.
   */
  lemma {:induction false} ActiveStaysInRange(m: StatsManager, ops: seq<bool>)
    requires m.current.activeConnections >= 0
    ensures 0 <= ApplyActive(m, ops).current.activeConnections <= m.current.activeConnections + Increments(ops)
    decreases |ops|
  {
    if ops != [] {
      var m' := if ops[0] then IncrementActive(m) else DecrementActive(m);
      ActiveStaysInRange(m', ops[1..]);
    }
  }
}
