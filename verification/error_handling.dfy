/** The error-handling service: a per-service state machine driven by
    recorded successes and errors, fallback data chosen by the service's
    strategy, recovery attempts after a cool-down, the decision the
    error-handling wrapper makes around a call, and the system-wide
    degradation plans. The clock is a parameter `now` in seconds. */
module ErrorHandling {
  import opened Values

  datatype ServiceState = Operational | Degraded | Failed | Recovering

  datatype FallbackStrategy = CacheOnly | LastKnownGood | MockData | FailFast | RetryWithBackoff

  datatype ServiceStatus = ServiceStatus(
    name: string, state: ServiceState, lastError: Option<string>, errorCount: nat,
    lastSuccess: Option<real>, lastFailure: Option<real>, fallbackActive: bool,
    fallbackStrategy: Option<FallbackStrategy>)

  /** `max_error_count`: this many errors in a row fail the service. */
  const MaxErrorCount: nat := 5
  /** `recovery_timeout`, in seconds. */
  const RecoveryTimeout: real := 300.0
  /** Last-known-good data older than this many seconds is not served. */
  const MaxGoodAge: real := 3600.0

  /** The consistency of one status record that every operation keeps:
      fallback is off when operational and on when degraded or failed (a
      recovering service keeps whatever it had when it failed), two errors
      in a row degrade the service and five fail it. */
  predicate Consistent(s: ServiceStatus)
  {
    && (s.state == Operational ==> !s.fallbackActive)
    && (s.state in {Degraded, Failed} ==> s.fallbackActive)
    && (s.errorCount >= 2 ==> s.state in {Degraded, Failed})
    && (s.errorCount >= MaxErrorCount ==> s.state == Failed)
  }

  /** `register_service`: a fresh operational record. */
  function Registered(name: string, strategy: FallbackStrategy): (s: ServiceStatus)
    ensures Consistent(s) && s.state == Operational && s.errorCount == 0
    ensures s.name == name && s.fallbackStrategy == Some(strategy)
  {
    ServiceStatus(name, Operational, None, 0, None, None, false, Some(strategy))
  }

  /** The record after a recorded success at `now`. */
  function AfterSuccess(s: ServiceStatus, now: real): (r: ServiceStatus)
    ensures Consistent(r)
    ensures r.state == Operational && r.errorCount == 0 && r.lastError == None && !r.fallbackActive
    ensures r.lastSuccess == Some(now)
    ensures r.name == s.name && r.lastFailure == s.lastFailure && r.fallbackStrategy == s.fallbackStrategy
  {
    s.(state := Operational, lastSuccess := Some(now), errorCount := 0, lastError := None, fallbackActive := false)
  }

  /** The record after recording `error` with `severity` at `now`. */
  function AfterError(s: ServiceStatus, error: string, severity: string, now: real): (r: ServiceStatus)
    ensures r.errorCount == s.errorCount + 1
    ensures r.lastError == Some(error) && r.lastFailure == Some(now)
    ensures severity == "critical" || r.errorCount >= MaxErrorCount ==> r.state == Failed && r.fallbackActive
    ensures !(severity == "critical" || r.errorCount >= MaxErrorCount) && r.errorCount >= 2 ==>
      r.state == Degraded && r.fallbackActive
    ensures !(severity == "critical" || r.errorCount >= 2) ==>
      r.state == s.state && r.fallbackActive == s.fallbackActive
    ensures r.name == s.name && r.lastSuccess == s.lastSuccess && r.fallbackStrategy == s.fallbackStrategy
    ensures Consistent(s) ==> Consistent(r)
  {
    var counted := s.(errorCount := s.errorCount + 1, lastFailure := Some(now), lastError := Some(error));
    if severity == "critical" || counted.errorCount >= MaxErrorCount then
      counted.(state := Failed, fallbackActive := true)
    else if counted.errorCount >= 2 then
      counted.(state := Degraded, fallbackActive := true)
    else counted
  }

  /** Whether `attempt_recovery` may start recovering this record at `now`:
      it failed, and the last failure (if any was recorded) is at least
      the recovery timeout ago. */
  predicate RecoveryDue(s: ServiceStatus, now: real)
  {
    s.state == Failed && (s.lastFailure.None? || now - s.lastFailure.value >= RecoveryTimeout)
  }

  /** The record once recovery has started. */
  function StartRecovery(s: ServiceStatus): (r: ServiceStatus)
    requires s.state == Failed
    ensures r.state == Recovering && r.errorCount == 0
    ensures Consistent(r)
    ensures r.fallbackActive == s.fallbackActive && r.lastFailure == s.lastFailure
  {
    s.(state := Recovering, errorCount := 0)
  }

  /** A run of errors of ordinary severity: two of them degrade any
      consistent record, five fail it. */
  function ErrorsAfter(s: ServiceStatus, n: nat, now: real): ServiceStatus
  {
    if n == 0 then s else AfterError(ErrorsAfter(s, n - 1, now), "error", "error", now)
  }

  lemma {:induction false} ErrorsCount(s: ServiceStatus, n: nat, now: real)
    ensures ErrorsAfter(s, n, now).errorCount == s.errorCount + n
    ensures Consistent(s) ==> Consistent(ErrorsAfter(s, n, now))
  {
    if n > 0 {
      ErrorsCount(s, n - 1, now);
    }
  }

  /** From an operational record, the second error degrades the service,
      the fifth fails it, and fallback is active from the second on. */
  lemma ErrorsEscalate(s: ServiceStatus, n: nat, now: real)
    requires Consistent(s) && s.errorCount == 0
    ensures n >= 2 ==> ErrorsAfter(s, n, now).state in {Degraded, Failed} && ErrorsAfter(s, n, now).fallbackActive
    ensures n >= MaxErrorCount ==> ErrorsAfter(s, n, now).state == Failed
  {
    ErrorsCount(s, n, now);
  }

  // ---------------------------------------------------------------------
  // Fallback data
  // ---------------------------------------------------------------------

  /** The key `"{service_name}:{data_key}"` of the fallback store. */
  function FallbackKey(service: string, dataKey: string): string
  {
    service + ":" + dataKey
  }

  /** Whether `s` starts with `p`. */
  predicate HasPrefix(s: string, p: string)
  {
    |p| <= |s| && s[..|p|] == p
  }

  /** Python's `sub in s` on strings. */
  predicate Contains(s: string, sub: string)
    decreases |s|
  {
    HasPrefix(s, sub) || (|s| > 0 && Contains(s[1..], sub))
  }

  /** `s.split(":")[-1]`: the text after the last colon, or all of `s`. */
  function AfterLastColon(s: string): (r: string)
    ensures ':' !in r
    ensures |r| <= |s| && r == s[|s| - |r|..]
    ensures ':' !in s ==> r == s
    ensures |r| < |s| ==> s[|s| - |r| - 1] == ':'
  {
    if |s| == 0 then s
    else if s[|s| - 1] == ':' then []
    else AfterLastColon(s[..|s| - 1]) + [s[|s| - 1]]
  }

  /** `_generate_mock_data`: a placeholder quote for the quote API, a
      status message for the socket service, None otherwise. */
  function MockDataFor(service: string, dataKey: string, nowIso: string): (v: Value)
    ensures v != VNone <==> (service == "bse_api" && Contains(dataKey, "stock_quote")) || service == "websocket"
    ensures service == "bse_api" && Contains(dataKey, "stock_quote") ==>
      && v.VDict? && "symbol" in v.d.vals && "mock" in v.d.vals
      && v.d.vals["symbol"] == VStr(if ':' in dataKey then AfterLastColon(dataKey) else "MOCK")
      && v.d.vals["mock"] == VBool(true)
  {
    if service == "bse_api" && Contains(dataKey, "stock_quote") then
      VDict(Dict(
        ["symbol", "company_name", "current_price", "change", "percent_change", "volume", "timestamp", "mock"],
        map["symbol" := VStr(if ':' in dataKey then AfterLastColon(dataKey) else "MOCK"),
            "company_name" := VStr("Mock Company"),
            "current_price" := VFloat(100.0),
            "change" := VFloat(0.0),
            "percent_change" := VFloat(0.0),
            "volume" := VInt(1000),
            "timestamp" := VStr(nowIso),
            "mock" := VBool(true)]))
    else if service == "cache" then VNone
    else if service == "websocket" then
      VDict(Dict(["status", "message"],
                 map["status" := VStr("degraded"), "message" := VStr("WebSocket service unavailable")]))
    else VNone
  }

  /** Last-known-good data and when it was stored. */
  datatype GoodData = GoodData(data: Value, storedAt: real)

  /** `get_fallback_data`, on the service's state: None (`VNone`) for an
      unregistered service and for the strategies without a source. */
  function FallbackFor(statuses: map<string, ServiceStatus>, fallbackData: map<string, Value>,
                       lastKnownGood: map<string, GoodData>, service: string, dataKey: string,
                       now: real, nowIso: string): (v: Value)
    ensures service !in statuses ==> v == VNone
    ensures service in statuses && statuses[service].fallbackStrategy == Some(CacheOnly) ==>
      v == (if FallbackKey(service, dataKey) in fallbackData then fallbackData[FallbackKey(service, dataKey)] else VNone)
    ensures service in statuses && statuses[service].fallbackStrategy == Some(LastKnownGood) ==>
      (v != VNone ==> service in lastKnownGood && v == lastKnownGood[service].data
                      && now - lastKnownGood[service].storedAt < MaxGoodAge)
    ensures service in statuses && statuses[service].fallbackStrategy in {None, Some(FailFast), Some(RetryWithBackoff)} ==>
      v == VNone
  {
    if service !in statuses then VNone
    else match statuses[service].fallbackStrategy
      case Some(CacheOnly) =>
        var key := FallbackKey(service, dataKey);
        if key in fallbackData then fallbackData[key] else VNone
      case Some(LastKnownGood) =>
        if service in lastKnownGood && now - lastKnownGood[service].storedAt < MaxGoodAge
        then lastKnownGood[service].data else VNone
      case Some(MockData) => MockDataFor(service, dataKey, nowIso)
      case _ => VNone
  }

  /** A cache-only service reads back exactly what was stored under its
      own name and the same data key. */
  lemma CacheOnlyReadsStored(statuses: map<string, ServiceStatus>, fallbackData: map<string, Value>,
                             lastKnownGood: map<string, GoodData>, service: string, dataKey: string,
                             data: Value, now: real, nowIso: string)
    requires service in statuses && statuses[service].fallbackStrategy == Some(CacheOnly)
    ensures FallbackFor(statuses, fallbackData[FallbackKey(service, dataKey) := data], lastKnownGood,
                        service, dataKey, now, nowIso) == data
  {
  }

  /** Fresh last-known-good data is served, stale data is not. */
  lemma LastKnownGoodAge(statuses: map<string, ServiceStatus>, fallbackData: map<string, Value>,
                         lastKnownGood: map<string, GoodData>, service: string, dataKey: string,
                         now: real, nowIso: string)
    requires service in statuses && statuses[service].fallbackStrategy == Some(LastKnownGood)
    requires service in lastKnownGood
    ensures now - lastKnownGood[service].storedAt < MaxGoodAge ==>
      FallbackFor(statuses, fallbackData, lastKnownGood, service, dataKey, now, nowIso) == lastKnownGood[service].data
    ensures now - lastKnownGood[service].storedAt >= MaxGoodAge ==>
      FallbackFor(statuses, fallbackData, lastKnownGood, service, dataKey, now, nowIso) == VNone
  {
  }

  /** The services listed as degraded or failed, in registration order. */
  function DegradedAmong(names: seq<string>, statuses: map<string, ServiceStatus>): (r: seq<string>)
    requires forall i :: 0 <= i < |names| ==> names[i] in statuses
    ensures forall x :: x in r <==> x in names && statuses[x].state in {Degraded, Failed}
    ensures |r| <= |names|
  {
    if |names| == 0 then []
    else
      var rest := DegradedAmong(names[..|names| - 1], statuses);
      var last := names[|names| - 1];
      assert forall x :: x in names <==> x in names[..|names| - 1] || x == last;
      if statuses[last].state in {Degraded, Failed} then rest + [last] else rest
  }

  // ---------------------------------------------------------------------
  // The service
  // ---------------------------------------------------------------------

  /** What the wrapped function did: returned a value or raised. */
  datatype CallOutcome = Returned(value: Value) | Raised(error: string)

  /** What the wrapper gives its caller: the function's own result, the
      fallback data, or the function's exception raised again. */
  datatype Guarded = Result(value: Value) | Fallback(data: Value) | Reraised(error: string)

  class ErrorHandlingService {
    /** Registered services, in registration order. */
    var serviceNames: seq<string>
    var serviceStatus: map<string, ServiceStatus>
    var fallbackData: map<string, Value>
    var lastKnownGood: map<string, GoodData>
    /** The recovery callbacks of each service, by name, in the order added. */
    var recoveryCallbacks: map<string, seq<string>>

    ghost predicate Valid()
      reads this
    {
      && Distinct(serviceNames)
      && (forall i :: 0 <= i < |serviceNames| ==> serviceNames[i] in serviceStatus)
      && (forall k :: k in serviceStatus ==> k in serviceNames)
      && (forall k :: k in serviceStatus ==> Consistent(serviceStatus[k]))
    }

    constructor()
      ensures Valid()
      ensures serviceNames == [] && serviceStatus == map[] && fallbackData == map[]
      ensures lastKnownGood == map[] && recoveryCallbacks == map[]
    {
      serviceNames, serviceStatus := [], map[];
      fallbackData, lastKnownGood, recoveryCallbacks := map[], map[], map[];
    }

    /** `register_service`: a fresh record; registering a name again resets
        its record but keeps its place. */
    method RegisterService(name: string, strategy: FallbackStrategy)
      requires Valid()
      modifies this
      ensures Valid()
      ensures serviceStatus == old(serviceStatus)[name := Registered(name, strategy)]
      ensures serviceNames == if name in old(serviceStatus) then old(serviceNames) else old(serviceNames) + [name]
      ensures fallbackData == old(fallbackData) && lastKnownGood == old(lastKnownGood)
      ensures recoveryCallbacks == old(recoveryCallbacks)
    {
      if name !in serviceStatus {
        serviceNames := serviceNames + [name];
      }
      serviceStatus := serviceStatus[name := Registered(name, strategy)];
    }

    /** `add_recovery_callback`. */
    method AddRecoveryCallback(name: string, callback: string)
      modifies this
      ensures recoveryCallbacks == old(recoveryCallbacks)[name :=
        (if name in old(recoveryCallbacks) then old(recoveryCallbacks)[name] else []) + [callback]]
      ensures serviceNames == old(serviceNames) && serviceStatus == old(serviceStatus)
      ensures fallbackData == old(fallbackData) && lastKnownGood == old(lastKnownGood)
    {
      var existing := if name in recoveryCallbacks then recoveryCallbacks[name] else [];
      recoveryCallbacks := recoveryCallbacks[name := existing + [callback]];
    }

    /** `record_success`: registers an unknown service (cache-only), makes
        it operational, keeps `data` as last known good unless it is None,
        and returns the recovery callbacks it runs, which are those of a
        service that was degraded, failed or recovering. */
    method RecordSuccess(name: string, data: Value, now: real) returns (fired: seq<string>)
      requires Valid()
      modifies this
      ensures Valid()
      ensures name in old(serviceStatus) ==> serviceNames == old(serviceNames)
      ensures name !in old(serviceStatus) ==> serviceNames == old(serviceNames) + [name]
      ensures var before := if name in old(serviceStatus) then old(serviceStatus)[name] else Registered(name, CacheOnly);
        && serviceStatus == old(serviceStatus)[name := AfterSuccess(before, now)]
        && fired == (if before.state in {Failed, Degraded, Recovering} && name in recoveryCallbacks
                     then recoveryCallbacks[name] else [])
      ensures lastKnownGood == if data == VNone then old(lastKnownGood) else old(lastKnownGood)[name := GoodData(data, now)]
      ensures fallbackData == old(fallbackData) && recoveryCallbacks == old(recoveryCallbacks)
    {
      if name !in serviceStatus {
        RegisterService(name, CacheOnly);
      }
      var previous := serviceStatus[name].state;
      serviceStatus := serviceStatus[name := AfterSuccess(serviceStatus[name], now)];
      if data != VNone {
        lastKnownGood := lastKnownGood[name := GoodData(data, now)];
      }
      fired := [];
      if previous in {Failed, Degraded, Recovering} && name in recoveryCallbacks {
        fired := recoveryCallbacks[name];
      }
    }

    /** `record_error`: registers an unknown service (cache-only), counts
        the error and escalates the state; returns the new state. */
    method RecordError(name: string, error: string, severity: string, now: real) returns (state: ServiceState)
      requires Valid()
      modifies this
      ensures Valid()
      ensures name in old(serviceStatus) ==> serviceNames == old(serviceNames)
      ensures name !in old(serviceStatus) ==> serviceNames == old(serviceNames) + [name]
      ensures var before := if name in old(serviceStatus) then old(serviceStatus)[name] else Registered(name, CacheOnly);
        serviceStatus == old(serviceStatus)[name := AfterError(before, error, severity, now)]
      ensures name in serviceStatus && state == serviceStatus[name].state
      ensures fallbackData == old(fallbackData) && lastKnownGood == old(lastKnownGood)
      ensures recoveryCallbacks == old(recoveryCallbacks)
    {
      if name !in serviceStatus {
        RegisterService(name, CacheOnly);
      }
      var updated := AfterError(serviceStatus[name], error, severity, now);
      serviceStatus := serviceStatus[name := updated];
      state := updated.state;
    }

    /** `get_fallback_data`. */
    function GetFallbackData(name: string, dataKey: string, now: real, nowIso: string): (v: Value)
      reads this
      ensures name !in serviceStatus ==> v == VNone
      ensures v == FallbackFor(serviceStatus, fallbackData, lastKnownGood, name, dataKey, now, nowIso)
    {
      FallbackFor(serviceStatus, fallbackData, lastKnownGood, name, dataKey, now, nowIso)
    }

    /** `set_fallback_data`. */
    method SetFallbackData(name: string, dataKey: string, data: Value)
      modifies this
      ensures fallbackData == old(fallbackData)[FallbackKey(name, dataKey) := data]
      ensures serviceNames == old(serviceNames) && serviceStatus == old(serviceStatus)
      ensures lastKnownGood == old(lastKnownGood) && recoveryCallbacks == old(recoveryCallbacks)
    {
      fallbackData := fallbackData[FallbackKey(name, dataKey) := data];
    }

    /** `attempt_recovery`: a failed service whose cool-down has passed
        starts recovering with a cleared error count. */
    method AttemptRecovery(name: string, now: real) returns (started: bool)
      requires Valid()
      modifies this
      ensures Valid()
      ensures started <==> name in old(serviceStatus) && RecoveryDue(old(serviceStatus)[name], now)
      ensures started ==> serviceStatus == old(serviceStatus)[name := StartRecovery(old(serviceStatus)[name])]
      ensures !started ==> serviceStatus == old(serviceStatus)
      ensures serviceNames == old(serviceNames) && fallbackData == old(fallbackData)
      ensures lastKnownGood == old(lastKnownGood) && recoveryCallbacks == old(recoveryCallbacks)
    {
      if name !in serviceStatus || !RecoveryDue(serviceStatus[name], now) {
        return false;
      }
      serviceStatus := serviceStatus[name := StartRecovery(serviceStatus[name])];
      started := true;
    }

    /** `is_service_healthy`. */
    function IsServiceHealthy(name: string): (healthy: bool)
      reads this
      ensures healthy <==> name in serviceStatus && serviceStatus[name].state == Operational
    {
      name in serviceStatus && serviceStatus[name].state == Operational
    }

    /** `get_degraded_services`: the degraded and failed services (not the
        recovering ones), in registration order. */
    method GetDegradedServices() returns (degraded: seq<string>)
      requires Valid()
      ensures degraded == DegradedAmong(serviceNames, serviceStatus)
      ensures forall x :: x in degraded <==> x in serviceStatus && serviceStatus[x].state in {Degraded, Failed}
    {
      degraded := [];
      var i := 0;
      while i < |serviceNames|
        invariant 0 <= i <= |serviceNames|
        invariant degraded == DegradedAmong(serviceNames[..i], serviceStatus)
      {
        assert serviceNames[..i + 1][..i] == serviceNames[..i];
        var name := serviceNames[i];
        if serviceStatus[name].state in {Degraded, Failed} {
          degraded := degraded + [name];
        }
        i := i + 1;
      }
      assert serviceNames[..i] == serviceNames;
    }

    /** The wrapper `with_error_handling` puts around a call of the
        function named `funcName` on behalf of `name`: a result is recorded
        as a success and returned; an error is recorded and, if that leaves
        the service degraded or failed and there is fallback data for the
        function, the fallback is returned, otherwise the error is raised
        again. The wrapper's own strategy argument is not used by it. */
    method WithErrorHandling(name: string, funcName: string, outcome: CallOutcome, now: real, nowIso: string)
      returns (r: Guarded, fired: seq<string>)
      requires Valid()
      modifies this
      ensures Valid()
      ensures outcome.Returned? ==> r == Result(outcome.value)
      ensures outcome.Raised? ==> fired == [] && name in serviceStatus
      ensures var before := if name in old(serviceStatus) then old(serviceStatus)[name] else Registered(name, CacheOnly);
        && (outcome.Returned? ==>
              && serviceStatus == old(serviceStatus)[name := AfterSuccess(before, now)]
              && fired == (if before.state in {Failed, Degraded, Recovering} && name in recoveryCallbacks
                           then recoveryCallbacks[name] else [])
              && lastKnownGood == if outcome.value == VNone then old(lastKnownGood)
                                  else old(lastKnownGood)[name := GoodData(outcome.value, now)])
        && (outcome.Raised? ==>
              && serviceStatus == old(serviceStatus)[name := AfterError(before, outcome.error, "error", now)]
              && lastKnownGood == old(lastKnownGood))
      ensures serviceNames == if name in old(serviceStatus) then old(serviceNames) else old(serviceNames) + [name]
      ensures fallbackData == old(fallbackData) && recoveryCallbacks == old(recoveryCallbacks)
      ensures outcome.Raised? ==>
        var fallback := FallbackFor(serviceStatus, fallbackData, lastKnownGood, name, funcName, now, nowIso);
        && (r.Fallback? <==> serviceStatus[name].state in {Failed, Degraded} && fallback != VNone)
        && (r.Fallback? ==> r.data == fallback)
        && (!r.Fallback? ==> r == Reraised(outcome.error))
    {
      match outcome
      case Returned(value) =>
        fired := RecordSuccess(name, value, now);
        r := Result(value);
      case Raised(error) =>
        fired := [];
        var state := RecordError(name, error, "error", now);
        if state in {Failed, Degraded} {
          var fallback := GetFallbackData(name, funcName, now, nowIso);
          if fallback != VNone {
            return Fallback(fallback), fired;
          }
        }
        r := Reraised(error);
    }
  }

  // ---------------------------------------------------------------------
  // Graceful degradation
  // ---------------------------------------------------------------------

  /** What one degradation handler reports. */
  datatype DegradationPlan = DegradationPlan(strategy: string, actions: seq<string>, impact: string)

  const BseApiPlan: DegradationPlan := DegradationPlan("cache_only",
    ["Disabled live API calls", "Serving data from cache only",
     "Increased cache TTL to 30 minutes", "Added staleness indicators to responses"],
    "Users will see cached data with staleness indicators")

  const CachePlan: DegradationPlan := DegradationPlan("direct_api",
    ["Bypassing cache layer", "Direct API calls for all requests",
     "Reduced concurrent request limits", "Added request queuing"],
    "Increased response times, reduced throughput")

  const WebSocketPlan: DegradationPlan := DegradationPlan("http_polling",
    ["Disabled WebSocket connections", "Enabled HTTP polling fallback",
     "Increased polling interval to reduce load", "Added connection retry logic"],
    "Reduced real-time capabilities, higher latency")

  /** Registered as a strategy but never chosen by the system-wide handler. */
  const DatabasePlan: DegradationPlan := DegradationPlan("memory_only",
    ["Switched to in-memory storage", "Disabled persistent data storage",
     "Reduced data retention period", "Added data loss warnings"],
    "Data will not persist across restarts")

  /** The handler `handle_system_degradation` runs for a degraded service. */
  function PlanFor(service: string): Option<DegradationPlan>
  {
    if service == "bse_api" then Some(BseApiPlan)
    else if service == "cache" then Some(CachePlan)
    else if service == "websocket" then Some(WebSocketPlan)
    else None
  }

  class GracefulDegradationManager {
    const errorHandler: ErrorHandlingService

    constructor(handler: ErrorHandlingService)
      ensures errorHandler == handler
    {
      errorHandler := handler;
    }

    /** `handle_system_degradation`: a plan for each degraded or failed
        service that has a handler. */
    method HandleSystemDegradation() returns (actions: map<string, DegradationPlan>)
      requires errorHandler.Valid()
      ensures forall s :: s in actions <==>
        s in errorHandler.serviceStatus && errorHandler.serviceStatus[s].state in {Degraded, Failed} && PlanFor(s).Some?
      ensures forall s :: s in actions ==> Some(actions[s]) == PlanFor(s)
    {
      var degraded := errorHandler.GetDegradedServices();
      actions := map[];
      var i := 0;
      while i < |degraded|
        invariant 0 <= i <= |degraded|
        invariant forall s :: s in actions <==> s in degraded[..i] && PlanFor(s).Some?
        invariant forall s :: s in actions ==> Some(actions[s]) == PlanFor(s)
      {
        assert degraded[..i + 1] == degraded[..i] + [degraded[i]];
        var plan := PlanFor(degraded[i]);
        if plan.Some? {
          actions := actions[degraded[i] := plan.value];
        }
        i := i + 1;
      }
      assert degraded[..i] == degraded;
    }
  }
}
