/**
 * The proxy addon's per-request decision logic, run sequentially: which
 * requests are processed, what happens to the body for each engine outcome,
 * and how the stats manager and the Prometheus counters move. The engine call
 * itself is an input (its text and stats, or the exception it raised).
 */
module ProxyAddon {
  import opened Wrappers
  import Stats

  /** The request methods whose bodies are redacted. */
  const ProcessedMethods: seq<string> := ["POST", "PUT", "PATCH"]

  /** The parts of an intercepted request the addon uses; `content` is its text body. */
  datatype Request = Request(httpMethod: string, host: string, content: string)

  /** A synthetic response attached to a flow, which stops it from reaching upstream. */
  datatype Response = Response(statusCode: int, content: string)

  /** An intercepted exchange: the request and, if one was attached, a response. */
  datatype Flow = Flow(request: Request, response: Option<Response>)

  /** `REQUESTS_TOTAL`, `REDACTED_TOTAL` and the `ACTIVE_CONNECTIONS` gauge, as plain numbers. */
  datatype Metrics = Metrics(requestsTotal: int, redactedTotal: int, activeConnections: int)

  /** `DLPAddon`: its stats manager and the counters it bumps. */
  datatype Addon = Addon(stats: Stats.StatsManager, metrics: Metrics)

  /** What `dlp_engine.redact` did: returned a text and its stats, or raised. */
  datatype EngineOutcome = Redacted(text: string, stats: map<string, int>) | EngineFailed(error: string)

  /** Everything one request's processing takes from outside: the engine outcome, the clock, the file. */
  datatype Environment = Environment(
    outcome: EngineOutcome,
    duration: real,
    now: int,
    flush: Stats.FlushResult)

  /** The addon and the flow after a request has been handled. */
  datatype Handled = Handled(addon: Addon, flow: Flow)

  /** What happens to a flow whose redaction raised. */
  datatype ErrorPolicy = FailOpen | FailClosed

  /** The blocking response a fail-closed pipeline attaches when the engine raises. */
  const EngineErrorResponse: Response := Response(500, "DLP Engine Error")

  /** `DLPAddon.__init__` without the engine: a fresh stats manager and counters at zero. */
  function NewAddon(statsFile: string, now: int, saved: Stats.SavedStats): Addon {
    Addon(Stats.Init(statsFile, Stats.DefaultFlushInterval, now, saved), Metrics(0, 0, 0))
  }

  /** `NewAddon` with the intended start of the stats manager, `Stats.InitIdle`. */
  function NewAddonIdle(statsFile: string, now: int, saved: Stats.SavedStats): Addon {
    Addon(Stats.InitIdle(statsFile, Stats.DefaultFlushInterval, now, saved), Metrics(0, 0, 0))
  }

  /** The condition of `request`: a body-carrying method and non-empty content. */
  predicate Eligible(r: Request) {
    r.httpMethod in ProcessedMethods && |r.content| > 0
  }

  /** Whether processing replaces the body: there is one, and the engine returned a text different from it. */
  predicate Redacts(f: Flow, env: Environment) {
    && |f.request.content| > 0
    && env.outcome.Redacted?
    && env.outcome.text != f.request.content
  }

  /** Whether `request` replaces the body: the request is processed and its body redacted. */
  predicate Rewrites(f: Flow, env: Environment) {
    Eligible(f.request) && Redacts(f, env)
  }

  /**
   * The `stats_manager.update` call made for a redacted body (the engine's
   * stats, the duration, the request's host), made while the request holds
   * the active-connection count open. The counters and the flush time are
   * those of the update alone; a snapshot it writes still counts the request.
   */
  function Recorded(m: Stats.StatsManager, f: Flow, env: Environment): (r: Stats.StatsManager)
    requires env.outcome.Redacted?
    ensures m.current.activeConnections >= 0 ==>
      var alone := Stats.Update(m, env.outcome.stats, env.duration, Some(f.request.host), env.now, env.flush);
      && r.current == alone.current
      && r.lastFlush == alone.lastFlush
      && r.written ==
           if Stats.FlushDue(m, env.now) && env.flush.Written? then
             Some(Stats.Persist(alone.current.(activeConnections := alone.current.activeConnections + 1)))
           else m.written
  {
    Stats.DecrementActive(
      Stats.Update(Stats.IncrementActive(m), env.outcome.stats, env.duration, Some(f.request.host), env.now, env.flush))
  }

  /**
   * `process_request` under an error policy: count the request and the open
   * connection, run the engine on a non-empty body, on a changed text replace
   * the body and record the redaction, on an exception apply the policy, and
   * in every case close the connection again.
   */
  function Process(a: Addon, f: Flow, env: Environment, policy: ErrorPolicy): (r: Handled)
    ensures r.addon.metrics ==
      a.metrics.(requestsTotal := a.metrics.requestsTotal + 1,
                 redactedTotal := a.metrics.redactedTotal + (if Redacts(f, env) then 1 else 0))
    ensures a.stats.current.activeConnections >= 0 ==>
      r.addon.stats == if Redacts(f, env) then Recorded(a.stats, f, env) else a.stats
    ensures Redacts(f, env) ==> r.flow == f.(request := f.request.(content := env.outcome.text))
    ensures |f.request.content| > 0 && env.outcome.EngineFailed? ==>
      r.flow == (if policy == FailClosed then f.(response := Some(EngineErrorResponse)) else f)
    ensures !Redacts(f, env) && !(|f.request.content| > 0 && env.outcome.EngineFailed?) ==> r.flow == f
  {
    var stats0 := Stats.IncrementActive(a.stats);
    var metrics0 := a.metrics.(
      activeConnections := a.metrics.activeConnections + 1,
      requestsTotal := a.metrics.requestsTotal + 1);
    var tried: Handled :=
      if |f.request.content| == 0 then Handled(Addon(stats0, metrics0), f)
      else match env.outcome
        case EngineFailed(_) =>
          var blocked := if policy == FailClosed then f.(response := Some(EngineErrorResponse)) else f;
          Handled(Addon(stats0, metrics0), blocked)
        case Redacted(text, requestStats) =>
          if text != f.request.content then
            Handled(
              Addon(
                Stats.Update(stats0, requestStats, env.duration, Some(f.request.host), env.now, env.flush),
                metrics0.(redactedTotal := metrics0.redactedTotal + 1)),
              f.(request := f.request.(content := text)))
          else Handled(Addon(stats0, metrics0), f);
    var closed := tried.addon.metrics;
    Handled(
      Addon(Stats.DecrementActive(tried.addon.stats), closed.(activeConnections := closed.activeConnections - 1)),
      tried.flow)
  }

  /**
   * `request` as written: eligible requests are processed, and an engine
   * exception is only logged, so the flow goes on unchanged.
   */
  function OnRequest(a: Addon, f: Flow, env: Environment): (r: Handled)
    ensures !Eligible(f.request) ==> r == Handled(a, f)
    ensures Eligible(f.request) ==> r.addon.metrics.requestsTotal == a.metrics.requestsTotal + 1
    ensures !Eligible(f.request) ==> r.addon.metrics.requestsTotal == a.metrics.requestsTotal
    ensures r.addon.metrics.activeConnections == a.metrics.activeConnections
    ensures a.stats.current.activeConnections >= 0 ==>
              r.addon.stats.current.activeConnections == a.stats.current.activeConnections
    ensures Rewrites(f, env) ==> r.flow.request == f.request.(content := env.outcome.text)
    ensures !Rewrites(f, env) ==> r.flow.request == f.request
    ensures r.addon.metrics.redactedTotal == a.metrics.redactedTotal + (if Rewrites(f, env) then 1 else 0)
    ensures r.addon.stats.current.totalRedacted == a.stats.current.totalRedacted + (if Rewrites(f, env) then 1 else 0)
    ensures r.addon.stats.current.totalRequests == a.stats.current.totalRequests + (if Rewrites(f, env) then 1 else 0)
    ensures a.stats.current.activeConnections >= 0 ==>
              r.addon.stats == if Rewrites(f, env) then Recorded(a.stats, f, env) else a.stats
    ensures r.flow.response == f.response
    ensures env.outcome.EngineFailed? ==> r.flow == f
  {
    if Eligible(f.request) then Process(a, f, env, FailOpen) else Handled(a, f)
  }

  /**
   * `request` with the fail-closed policy the integration test expects: an
   * engine exception attaches a 500 response so the body never goes upstream.
   */
  function OnRequestFailClosed(a: Addon, f: Flow, env: Environment): (r: Handled)
    ensures Eligible(f.request) && env.outcome.EngineFailed? ==>
              r.flow == f.(response := Some(EngineErrorResponse))
    ensures Eligible(f.request) ==> r.addon.metrics.requestsTotal == a.metrics.requestsTotal + 1
    ensures r.addon.metrics.activeConnections == a.metrics.activeConnections
    ensures a.stats.current.activeConnections >= 0 ==>
              r.addon.stats.current.activeConnections == a.stats.current.activeConnections
    ensures Rewrites(f, env) ==> r.flow.request == f.request.(content := env.outcome.text)
    ensures !Rewrites(f, env) ==> r.flow.request == f.request
    ensures a.stats.current.activeConnections >= 0 ==>
              r.addon.stats == if Rewrites(f, env) then Recorded(a.stats, f, env) else a.stats
  {
    if Eligible(f.request) then Process(a, f, env, FailClosed) else Handled(a, f)
  }

  /** Fail-closed: an eligible request whose redaction raised carries a blocking 5xx response. */
  predicate BlocksOnEngineError(f: Flow, env: Environment, r: Handled) {
    Eligible(f.request) && env.outcome.EngineFailed? ==>
      r.flow.response.Some? && r.flow.response.value.statusCode >= 500
  }

  /**
   * As written the pipeline fails open: a POST whose redaction raises goes
   * upstream with its original body and no response, which the integration
   * test's fail-closed expectation rejects.
   */
  lemma AsWrittenFailsOpen(a: Addon)
    ensures
      var f := Flow(Request("POST", "api.example.com", "test"), None);
      var env := Environment(EngineFailed("DLP Crash"), 0.0, 0, Stats.WriteFailed);
      && OnRequest(a, f, env).flow == f
      && !BlocksOnEngineError(f, env, OnRequest(a, f, env))
  {
  }

  /** With the fail-closed policy every engine failure blocks the request. */
  lemma FailClosedBlocks(a: Addon, f: Flow, env: Environment)
    ensures BlocksOnEngineError(f, env, OnRequestFailClosed(a, f, env))
  {
  }

  /** The fail-closed pipeline differs from the written one only when the engine raised. */
  lemma FailClosedAgreesOtherwise(a: Addon, f: Flow, env: Environment)
    ensures env.outcome.Redacted? || !Eligible(f.request) ==>
              OnRequestFailClosed(a, f, env) == OnRequest(a, f, env)
    ensures OnRequestFailClosed(a, f, env).addon == OnRequest(a, f, env).addon
  {
  }

  // ---------------------------------------------------------------------
  // Runs of requests
  // ---------------------------------------------------------------------

  /** One intercepted request together with the environment it was processed in. */
  datatype Exchange = Exchange(flow: Flow, env: Environment)

  /** The addon after handling each exchange in turn. */
  function HandleAll(a: Addon, xs: seq<Exchange>): Addon
    decreases |xs|
  {
    if xs == [] then a
    else HandleAll(OnRequest(a, xs[0].flow, xs[0].env).addon, xs[1..])
  }

  /**
   * Over any run the stats manager's two totals and `REDACTED_TOTAL` move in
   * lock step, `REQUESTS_TOTAL` keeps at least their pace, and both
   * active-connection counts come back to where they started.
   */
  lemma {:induction false} HandleAllInvariants(a: Addon, xs: seq<Exchange>)
    ensures var b := HandleAll(a, xs);
      && b.stats.current.totalRedacted - b.metrics.redactedTotal ==
           a.stats.current.totalRedacted - a.metrics.redactedTotal
      && b.stats.current.totalRequests - b.stats.current.totalRedacted ==
           a.stats.current.totalRequests - a.stats.current.totalRedacted
      && b.metrics.requestsTotal - b.metrics.redactedTotal >= a.metrics.requestsTotal - a.metrics.redactedTotal
      && b.metrics.activeConnections == a.metrics.activeConnections
      && (a.stats.current.activeConnections >= 0 ==>
            b.stats.current.activeConnections == a.stats.current.activeConnections)
    decreases |xs|
  {
    if xs != [] {
      HandleAllInvariants(OnRequest(a, xs[0].flow, xs[0].env).addon, xs[1..]);
    }
  }

  /**
   * From a fresh start with no saved stats, the persisted `total_requests`
   * counts only redacted requests: it always equals `total_redacted` and
   * `REDACTED_TOTAL`, and never exceeds `REQUESTS_TOTAL`.
   */
  lemma FreshRunCountsOnlyRedactions(statsFile: string, now: int, xs: seq<Exchange>)
    ensures var b := HandleAll(NewAddon(statsFile, now, Stats.NoFile), xs);
      && b.stats.current.totalRequests == b.stats.current.totalRedacted
      && b.stats.current.totalRedacted == b.metrics.redactedTotal
      && b.metrics.redactedTotal <= b.metrics.requestsTotal
      && b.stats.current.activeConnections == 0
  {
    HandleAllInvariants(NewAddon(statsFile, now, Stats.NoFile), xs);
  }

  // ---------------------------------------------------------------------
  // Restarts
  // ---------------------------------------------------------------------

  /**
   * As written, the active-connection count does not survive a restart
   * intact: one redacted POST that triggers a flush writes a snapshot
   * counting itself as active, and an addon restarted from that snapshot
   * reports one active connection after any run of requests, while the
   * first addon's live count is back at zero.
   */
  lemma RestartKeepsStaleGauge(statsFile: string, xs: seq<Exchange>)
    ensures
      var f := Flow(Request("POST", "api.example.com", "secret"), None);
      var env := Environment(Redacted("[REDACTED]", map[]), 0.0, 2, Stats.Written(2));
      var first := OnRequest(NewAddon(statsFile, 0, Stats.NoFile), f, env).addon;
      && first.stats.current.activeConnections == 0
      && first.stats.written.Some?
      && first.stats.written.value.activeConnections == Some(1)
      && HandleAll(NewAddon(statsFile, 3, Stats.Loaded(first.stats.written.value)), xs)
           .stats.current.activeConnections == 1
  {
    var f := Flow(Request("POST", "api.example.com", "secret"), None);
    var env := Environment(Redacted("[REDACTED]", map[]), 0.0, 2, Stats.Written(2));
    var a := NewAddon(statsFile, 0, Stats.NoFile);
    assert Rewrites(f, env);
    var first := OnRequest(a, f, env).addon;
    assert first.stats == Recorded(a.stats, f, env);
    HandleAllInvariants(NewAddon(statsFile, 3, Stats.Loaded(first.stats.written.value)), xs);
  }

  /**
   * With the intended start, an addon restarted from any saved stats, or
   * none, has no active connection after any run of requests.
   */
  lemma RestartedAddonEndsIdle(statsFile: string, now: int, saved: Stats.SavedStats, xs: seq<Exchange>)
    ensures HandleAll(NewAddonIdle(statsFile, now, saved), xs).stats.current.activeConnections == 0
  {
    HandleAllInvariants(NewAddonIdle(statsFile, now, saved), xs);
  }
}
