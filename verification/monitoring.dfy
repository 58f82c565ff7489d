/** services/monitoring_service.py: the circuit breaker, the metrics
    collector with its bounded histories, health-check classification and
    the alert list. Clock readings are passed in as seconds. */
module Monitoring {
  import opened Values

  // ---------------------------------------------------------------------
  // CircuitBreaker
  // ---------------------------------------------------------------------

  datatype BreakerState = Closed | Open | HalfOpen

  /** The mutable part of a breaker. */
  datatype BreakerData = BreakerData(state: BreakerState, failureCount: nat, lastFailureTime: Option<real>)

  /** How the wrapped call ends: it returns, raises the breaker's expected
      exception type, or raises something else. */
  datatype CallOutcome = Returned(value: Value) | ExpectedFailure | OtherFailure

  /** What `call` does for its caller: return the result, raise "Circuit
      breaker is open" without running the function, or re-raise the
      function's exception. */
  datatype CallResult = Success(value: Value) | RejectedOpen | Raised

  /** `_should_attempt_reset`. */
  predicate ShouldAttemptReset(last: Option<real>, recoveryTimeout: int, now: real)
  {
    last.None? || now - last.value >= recoveryTimeout as real
  }

  /** One `call`: the breaker afterwards and what the caller sees. */
  function CallStep(b: BreakerData, threshold: int, recoveryTimeout: int, outcome: CallOutcome, now: real)
    : (BreakerData, CallResult)
  {
    if b.state == Open && !ShouldAttemptReset(b.lastFailureTime, recoveryTimeout, now) then
      (b, RejectedOpen)
    else
      var entered := if b.state == Open then HalfOpen else b.state;
      match outcome
      case Returned(v) => (BreakerData(Closed, 0, b.lastFailureTime), Success(v))
      case ExpectedFailure =>
        var count := b.failureCount + 1;
        (BreakerData(if count >= threshold then Open else entered, count, Some(now)), Raised)
      case OtherFailure => (b.(state := entered), Raised)
  }

  /** With a positive threshold the breaker is closed exactly while fewer
      failures than the threshold are counted; an open breaker has recorded
      the time of the failure that opened it. */
  ghost predicate BreakerInvariant(b: BreakerData, threshold: int)
  {
    && (threshold >= 1 ==> (b.state == Closed <==> b.failureCount < threshold))
    && (b.state == Open ==> b.lastFailureTime.Some?)
  }

  /** An open breaker inside its recovery timeout rejects the call without
      running it and changes nothing. */
  lemma OpenRejects(b: BreakerData, threshold: int, recoveryTimeout: int, outcome: CallOutcome, now: real)
    requires b.state == Open && b.lastFailureTime.Some?
    requires now - b.lastFailureTime.value < recoveryTimeout as real
    ensures CallStep(b, threshold, recoveryTimeout, outcome, now) == (b, RejectedOpen)
  {
  }

  /** An open breaker past its timeout, or with no recorded failure, lets the
      call through half-open: a success closes it, an unexpected exception
      leaves it half-open. */
  lemma OpenTriesHalfOpen(b: BreakerData, threshold: int, recoveryTimeout: int, outcome: CallOutcome, now: real)
    requires b.state == Open && ShouldAttemptReset(b.lastFailureTime, recoveryTimeout, now)
    ensures CallStep(b, threshold, recoveryTimeout, outcome, now).1 != RejectedOpen
    ensures outcome.OtherFailure? ==> CallStep(b, threshold, recoveryTimeout, outcome, now).0.state == HalfOpen
    ensures outcome.Returned? ==> CallStep(b, threshold, recoveryTimeout, outcome, now).0.state == Closed
  {
  }

  /** A call that runs: success resets the count and closes; an expected
      failure counts, stamps the time and opens at the threshold; any other
      exception does no bookkeeping. */
  lemma CallBookkeeping(b: BreakerData, threshold: int, recoveryTimeout: int, outcome: CallOutcome, now: real)
    requires b.state != Open || ShouldAttemptReset(b.lastFailureTime, recoveryTimeout, now)
    ensures var (b', r) := CallStep(b, threshold, recoveryTimeout, outcome, now);
      && (outcome.Returned? ==> b'.failureCount == 0 && b'.state == Closed && r == Success(outcome.value))
      && (outcome.ExpectedFailure? ==>
            b'.failureCount == b.failureCount + 1 && b'.lastFailureTime == Some(now) && r == Raised
            && (b'.state == Open <==> b.failureCount + 1 >= threshold))
      && (outcome.OtherFailure? ==>
            b'.failureCount == b.failureCount && b'.lastFailureTime == b.lastFailureTime && r == Raised)
  {
  }

  /** Every call preserves the breaker invariant. */
  lemma CallPreservesInvariant(b: BreakerData, threshold: int, recoveryTimeout: int, outcome: CallOutcome, now: real)
    requires BreakerInvariant(b, threshold)
    ensures BreakerInvariant(CallStep(b, threshold, recoveryTimeout, outcome, now).0, threshold)
  {
  }

  /** The breaker after a run of calls that all raise the expected
      exception, at the given times. */
  function FailAt(b: BreakerData, threshold: int, recoveryTimeout: int, times: seq<real>): BreakerData
    decreases |times|
  {
    if |times| == 0 then b
    else FailAt(CallStep(b, threshold, recoveryTimeout, ExpectedFailure, times[0]).0, threshold, recoveryTimeout, times[1..])
  }

  /** Expected failures never close an open breaker. */
  lemma {:induction false} OpenStaysOpen(b: BreakerData, threshold: int, recoveryTimeout: int, times: seq<real>)
    requires b.state == Open && BreakerInvariant(b, threshold) && threshold >= 1
    ensures FailAt(b, threshold, recoveryTimeout, times).state == Open
    decreases |times|
  {
    if |times| > 0 {
      var next := CallStep(b, threshold, recoveryTimeout, ExpectedFailure, times[0]).0;
      CallPreservesInvariant(b, threshold, recoveryTimeout, ExpectedFailure, times[0]);
      OpenStaysOpen(next, threshold, recoveryTimeout, times[1..]);
    }
  }

  /** From a consistent closed breaker, as many consecutive expected
      failures as remain below the threshold open it. */
  lemma {:induction false} ConsecutiveFailuresOpen(b: BreakerData, threshold: int, recoveryTimeout: int, times: seq<real>)
    requires threshold >= 1 && BreakerInvariant(b, threshold) && b.state == Closed
    requires |times| >= threshold - b.failureCount
    ensures FailAt(b, threshold, recoveryTimeout, times).state == Open
    decreases |times|
  {
    var next := CallStep(b, threshold, recoveryTimeout, ExpectedFailure, times[0]).0;
    CallPreservesInvariant(b, threshold, recoveryTimeout, ExpectedFailure, times[0]);
    if next.state == Open {
      OpenStaysOpen(next, threshold, recoveryTimeout, times[1..]);
    } else {
      ConsecutiveFailuresOpen(next, threshold, recoveryTimeout, times[1..]);
    }
  }

  /** `get_state()`. */
  datatype BreakerView = BreakerView(
    state: string, failureCount: nat, failureThreshold: int, lastFailureTime: Option<real>, recoveryTimeout: int)

  function StateName(s: BreakerState): string
  {
    match s
    case Closed => "closed"
    case Open => "open"
    case HalfOpen => "half-open"
  }

  class CircuitBreaker {
    const failureThreshold: int
    const recoveryTimeout: int
    var state: BreakerState
    var failureCount: nat
    var lastFailureTime: Option<real>

    function Data(): BreakerData
      reads this
    {
      BreakerData(state, failureCount, lastFailureTime)
    }

    constructor(threshold: int, timeout: int)
      ensures failureThreshold == threshold && recoveryTimeout == timeout
      ensures Data() == BreakerData(Closed, 0, None)
      ensures BreakerInvariant(Data(), failureThreshold)
    {
      failureThreshold, recoveryTimeout := threshold, timeout;
      state, failureCount, lastFailureTime := Closed, 0, None;
    }

    /** `call(func)`, the function's behaviour given as `outcome`. */
    method Call(outcome: CallOutcome, now: real) returns (r: CallResult)
      modifies this
      ensures (Data(), r) == CallStep(old(Data()), failureThreshold, recoveryTimeout, outcome, now)
    {
      if state == Open {
        if ShouldAttemptReset(lastFailureTime, recoveryTimeout, now) {
          state := HalfOpen;
        } else {
          return RejectedOpen;
        }
      }
      match outcome
      case Returned(v) =>
        if state == HalfOpen {
          state := Closed;
        }
        failureCount := 0;
        r := Success(v);
      case ExpectedFailure =>
        failureCount := failureCount + 1;
        lastFailureTime := Some(now);
        if failureCount >= failureThreshold {
          state := Open;
        }
        r := Raised;
      case OtherFailure =>
        r := Raised;
    }

    /** `get_state()`. */
    function GetState(): (v: BreakerView)
      reads this
      ensures v.failureCount == failureCount && v.failureThreshold == failureThreshold
      ensures v.state == "closed" <==> state == Closed
      ensures v.state == "open" <==> state == Open
    {
      BreakerView(StateName(state), failureCount, failureThreshold, lastFailureTime, recoveryTimeout)
    }
  }

  // ---------------------------------------------------------------------
  // MetricsCollector
  // ---------------------------------------------------------------------

  datatype MetricPoint = MetricPoint(timestamp: real, value: real, tags: map<string, string>)

  /** `deque(maxlen=max).append(p)`: the newest `max` points survive. */
  function BoundedAppend(history: seq<MetricPoint>, p: MetricPoint, max: nat): (r: seq<MetricPoint>)
    ensures |r| <= max
    ensures |history| < max ==> r == history + [p]
    ensures 0 < max <= |history| ==> r == history[|history| - max + 1..] + [p]
    ensures max == 0 ==> r == []
  {
    var all := history + [p];
    if |all| <= max then all
    else if max == 0 then []
    else
      assert all[|all| - max..] == all[|all| - max..|all| - 1] + [p];
      assert all[|all| - max..|all| - 1] == history[|history| - max + 1..];
      all[|all| - max..]
  }

  /** The summary `get_metric_summary` returns. */
  datatype Summary = Summary(
    count: nat, min: real, max: real, avg: real, latest: real, firstTimestamp: real, lastTimestamp: real)

  datatype SummaryError = MetricNotFound(name: string) | NoDataInWindow

  datatype SummaryResult = Summarized(summary: Summary) | SummaryFailed(error: SummaryError)

  /** The points at or after `cutoff`, in order. */
  function PointsSince(points: seq<MetricPoint>, cutoff: real): (r: seq<MetricPoint>)
    ensures |r| <= |points|
    ensures forall p :: p in r <==> p in points && p.timestamp >= cutoff
  {
    if |points| == 0 then []
    else
      var rest := PointsSince(points[..|points| - 1], cutoff);
      var last := points[|points| - 1];
      assert points == points[..|points| - 1] + [last];
      if last.timestamp >= cutoff then rest + [last] else rest
  }

  /** The points `get_metric_summary` summarises: those inside the window
      when one is given and non-zero (a zero window is falsy), otherwise the
      whole history. */
  function WindowPoints(points: seq<MetricPoint>, window: Option<real>, now: real): (w: seq<MetricPoint>)
    ensures window.None? || window.value == 0.0 ==> w == points
    ensures window.Some? && window.value != 0.0 ==>
      forall p :: p in w <==> p in points && p.timestamp >= now - window.value
  {
    if window.Some? && window.value != 0.0 then PointsSince(points, now - window.value) else points
  }

  function PointValues(points: seq<MetricPoint>): (vs: seq<real>)
    ensures |vs| == |points|
    ensures forall i :: 0 <= i < |points| ==> vs[i] == points[i].value
  {
    seq(|points|, i requires 0 <= i < |points| => points[i].value)
  }

  function SumOf(vs: seq<real>): real
  {
    if |vs| == 0 then 0.0 else SumOf(vs[..|vs| - 1]) + vs[|vs| - 1]
  }

  function MinOf(vs: seq<real>): (m: real)
    requires |vs| > 0
    ensures forall i :: 0 <= i < |vs| ==> m <= vs[i]
    ensures exists i :: 0 <= i < |vs| && m == vs[i]
  {
    if |vs| == 1 then vs[0]
    else
      var m := MinOf(vs[..|vs| - 1]);
      if vs[|vs| - 1] < m then vs[|vs| - 1] else m
  }

  function MaxOf(vs: seq<real>): (m: real)
    requires |vs| > 0
    ensures forall i :: 0 <= i < |vs| ==> vs[i] <= m
    ensures exists i :: 0 <= i < |vs| && m == vs[i]
  {
    if |vs| == 1 then vs[0]
    else
      var m := MaxOf(vs[..|vs| - 1]);
      if vs[|vs| - 1] > m then vs[|vs| - 1] else m
  }

  /** A sum lies between count times any lower bound and count times any
      upper bound of its terms. */
  lemma {:induction false} SumBounds(vs: seq<real>, lo: real, hi: real)
    requires forall i :: 0 <= i < |vs| ==> lo <= vs[i] <= hi
    ensures |vs| as real * lo <= SumOf(vs) <= |vs| as real * hi
  {
    if |vs| > 0 {
      SumBounds(vs[..|vs| - 1], lo, hi);
    }
  }

  /** The mean of a non-empty sequence lies between its minimum and maximum. */
  lemma MeanBetween(vs: seq<real>)
    requires |vs| > 0
    ensures MinOf(vs) <= SumOf(vs) / |vs| as real <= MaxOf(vs)
  {
    MeanWithin(vs, MinOf(vs), MaxOf(vs));
  }

  lemma MeanWithin(vs: seq<real>, lo: real, hi: real)
    requires |vs| > 0
    requires forall i :: 0 <= i < |vs| ==> lo <= vs[i] <= hi
    ensures lo <= SumOf(vs) / |vs| as real <= hi
  {
    SumBounds(vs, lo, hi);
    QuotientBounds(SumOf(vs), |vs| as real, lo, hi);
  }

  lemma QuotientBounds(total: real, n: real, lo: real, hi: real)
    requires n > 0.0 && n * lo <= total <= n * hi
    ensures lo <= total / n <= hi
  {
    assert total / n * n == total;
  }

  /** `get_all_metrics()`. */
  datatype AllMetrics = AllMetrics(counters: map<string, int>, gauges: map<string, real>, metricsCount: map<string, nat>)

  class MetricsCollector {
    const maxPointsPerMetric: nat
    var metrics: map<string, seq<MetricPoint>>
    var counters: map<string, int>
    var gauges: map<string, real>

    /** No history is longer than the bound. */
    ghost predicate Valid()
      reads this
    {
      forall n :: n in metrics ==> |metrics[n]| <= maxPointsPerMetric
    }

    constructor(maxPoints: nat)
      ensures Valid() && maxPointsPerMetric == maxPoints
      ensures metrics == map[] && counters == map[] && gauges == map[]
    {
      maxPointsPerMetric := maxPoints;
      metrics, counters, gauges := map[], map[], map[];
    }

    /** `self.metrics[name]`, an empty history when absent. */
    function History(name: string): seq<MetricPoint>
      reads this
    {
      if name in metrics then metrics[name] else []
    }

    /** `record_counter`: the counter grows by `value` and its history gets
        a point carrying the new cumulative count. */
    method RecordCounter(name: string, value: int, tags: map<string, string>, now: real)
      requires Valid()
      modifies this
      ensures Valid()
      ensures counters == old(counters)[name := (if name in old(counters) then old(counters)[name] else 0) + value]
      ensures metrics == old(metrics)[name := BoundedAppend(old(History(name)),
                MetricPoint(now, counters[name] as real, tags), maxPointsPerMetric)]
      ensures gauges == old(gauges)
    {
      var current := if name in counters then counters[name] else 0;
      counters := counters[name := current + value];
      metrics := metrics[name := BoundedAppend(History(name), MetricPoint(now, (current + value) as real, tags), maxPointsPerMetric)];
    }

    /** `record_gauge`: the gauge is overwritten and the value recorded. */
    method RecordGauge(name: string, value: real, tags: map<string, string>, now: real)
      requires Valid()
      modifies this
      ensures Valid()
      ensures gauges == old(gauges)[name := value]
      ensures metrics == old(metrics)[name := BoundedAppend(old(History(name)), MetricPoint(now, value, tags), maxPointsPerMetric)]
      ensures counters == old(counters)
    {
      gauges := gauges[name := value];
      metrics := metrics[name := BoundedAppend(History(name), MetricPoint(now, value, tags), maxPointsPerMetric)];
    }

    /** `record_timing`: only the history changes. */
    method RecordTiming(name: string, duration: real, tags: map<string, string>, now: real)
      requires Valid()
      modifies this
      ensures Valid()
      ensures metrics == old(metrics)[name := BoundedAppend(old(History(name)), MetricPoint(now, duration, tags), maxPointsPerMetric)]
      ensures counters == old(counters) && gauges == old(gauges)
    {
      metrics := metrics[name := BoundedAppend(History(name), MetricPoint(now, duration, tags), maxPointsPerMetric)];
    }

    /** `get_metric_summary(name, time_window)`: `window` is the window in
        seconds; a zero window, like an absent one, is falsy and filters
        nothing. */
    function GetMetricSummary(name: string, window: Option<real>, now: real): (r: SummaryResult)
      reads this
      ensures name !in metrics ==> r == SummaryFailed(MetricNotFound(name))
      ensures name in metrics ==>
        var w := WindowPoints(metrics[name], window, now);
        && (|w| == 0 <==> r == SummaryFailed(NoDataInWindow))
        && (|w| > 0 <==> r.Summarized?)
      ensures r.Summarized? ==>
        var w := WindowPoints(metrics[name], window, now);
        && 1 <= r.summary.count == |w| <= |metrics[name]|
        && r.summary.min == MinOf(PointValues(w)) && r.summary.max == MaxOf(PointValues(w))
        && r.summary.min <= r.summary.avg <= r.summary.max
        && r.summary.latest == w[|w| - 1].value
        && r.summary.firstTimestamp == w[0].timestamp && r.summary.lastTimestamp == w[|w| - 1].timestamp
    {
      if name !in metrics then SummaryFailed(MetricNotFound(name))
      else
        var points := WindowPoints(metrics[name], window, now);
        if |points| == 0 then SummaryFailed(NoDataInWindow)
        else
          var vs := PointValues(points);
          MeanBetween(vs);
          assert points[|points| - 1] in points;
          Summarized(Summary(|vs|, MinOf(vs), MaxOf(vs), SumOf(vs) / |vs| as real, vs[|vs| - 1],
                             points[0].timestamp, points[|points| - 1].timestamp))
    }

    /** `get_all_metrics()`. */
    function GetAllMetrics(): (r: AllMetrics)
      requires Valid()
      reads this
      ensures r.counters == counters && r.gauges == gauges
      ensures r.metricsCount.Keys == metrics.Keys
      ensures forall n :: n in r.metricsCount ==> r.metricsCount[n] == |metrics[n]| <= maxPointsPerMetric
    {
      AllMetrics(counters, gauges, map n | n in metrics :: |metrics[n]|)
    }
  }

  // ---------------------------------------------------------------------
  // Health checks
  // ---------------------------------------------------------------------

  /** Ordered by severity. */
  datatype HealthStatus = Healthy | Degraded | Unhealthy

  function Severity(s: HealthStatus): nat
  {
    match s
    case Healthy => 0
    case Degraded => 1
    case Unhealthy => 2
  }

  /** The more severe of two statuses. */
  function Worse(a: HealthStatus, b: HealthStatus): (w: HealthStatus)
    ensures Severity(w) >= Severity(a) && Severity(w) >= Severity(b)
    ensures w == a || w == b
  {
    if Severity(b) > Severity(a) then b else a
  }

  /** What `_run_check_with_timeout` reports for one check: it passed, it
      failed (with the error it recorded, None when the check simply
      returned False), or running it raised. */
  datatype CheckOutcome = Passed | Failed(error: Option<string>) | Crashed(message: string)

  datatype HealthCheck = HealthCheck(
    name: string, description: string, timeout: real,
    lastCheck: Option<real>, lastResult: bool, lastError: Option<string>, consecutiveFailures: nat)

  /** The record after one run of the check. */
  function CheckedRecord(c: HealthCheck, o: CheckOutcome, now: real): HealthCheck
  {
    match o
    case Passed => c.(lastCheck := Some(now), lastResult := true, lastError := None, consecutiveFailures := 0)
    case Failed(err) =>
      c.(lastCheck := Some(now), lastResult := false,
         lastError := if err.Some? then err else c.lastError,
         consecutiveFailures := c.consecutiveFailures + 1)
    case Crashed(err) =>
      c.(lastCheck := Some(now), lastResult := false, lastError := Some(err),
         consecutiveFailures := c.consecutiveFailures + 1)
  }

  /** The status a check is classified as after it ran: fewer than three
      consecutive failures is degraded, three or more unhealthy. */
  function CheckStatus(after: HealthCheck, o: CheckOutcome): HealthStatus
  {
    match o
    case Passed => Healthy
    case Failed(_) => if after.consecutiveFailures < 3 then Degraded else Unhealthy
    case Crashed(_) => Unhealthy
  }

  // ---------------------------------------------------------------------
  // Alerts
  // ---------------------------------------------------------------------

  datatype AlertLevel = Info | Warning | Error | Critical

  datatype Alert = Alert(
    id: string, level: AlertLevel, message: string, timestamp: real, component: string,
    resolved: bool, resolvedAt: Option<real>)

  /** An entry of `get_active_alerts()`. */
  datatype ActiveAlert = ActiveAlert(id: string, level: AlertLevel, message: string, component: string, timestamp: real)

  /** `f"{component}_{int(time.time())}"`. */
  function AlertId(component: string, now: real): string
  {
    component + "_" + IntText(Trunc(now))
  }

  /** The entry an alert is listed as. */
  function ActiveOf(x: Alert): ActiveAlert
  {
    ActiveAlert(x.id, x.level, x.message, x.component, x.timestamp)
  }

  /** `get_active_alerts()`: the unresolved alerts, in order. */
  function ActiveAlerts(alerts: seq<Alert>): (r: seq<ActiveAlert>)
    ensures |r| <= |alerts|
    ensures forall a :: a in r ==> exists x :: x in alerts && !x.resolved && a == ActiveOf(x)
    ensures forall x :: x in alerts && !x.resolved ==> ActiveOf(x) in r
  {
    if |alerts| == 0 then []
    else
      var rest := ActiveAlerts(alerts[..|alerts| - 1]);
      var last := alerts[|alerts| - 1];
      assert forall x :: x in alerts[..|alerts| - 1] ==> x in alerts;
      assert alerts == alerts[..|alerts| - 1] + [last];
      if last.resolved then rest
      else rest + [ActiveOf(last)]
  }

  /** The listing keeps the order of the alerts: listing two runs of alerts
      one after the other is listing their concatenation. */
  lemma {:induction false} ActiveAlertsConcat(a: seq<Alert>, b: seq<Alert>)
    ensures ActiveAlerts(a + b) == ActiveAlerts(a) + ActiveAlerts(b)
    decreases |b|
  {
    if |b| == 0 {
      assert a + b == a;
    } else {
      var b' := b[..|b| - 1];
      assert (a + b)[..|a + b| - 1] == a + b';
      ActiveAlertsConcat(a, b');
    }
  }

  /** A single alert is listed exactly when it is unresolved. */
  lemma ActiveAlertsSingle(x: Alert)
    ensures ActiveAlerts([x]) == if x.resolved then [] else [ActiveOf(x)]
  {
    assert [x][..0] == [];
  }

  /** Resolving an unresolved alert shortens the active list by one. */
  lemma {:induction false} ResolveShrinksActive(alerts: seq<Alert>, i: nat, now: real)
    requires i < |alerts| && !alerts[i].resolved
    ensures |ActiveAlerts(alerts[i := alerts[i].(resolved := true, resolvedAt := Some(now))])| ==
            |ActiveAlerts(alerts)| - 1
  {
    var alerts' := alerts[i := alerts[i].(resolved := true, resolvedAt := Some(now))];
    var n := |alerts|;
    if i == n - 1 {
      assert alerts'[..n - 1] == alerts[..n - 1];
    } else {
      ResolveShrinksActive(alerts[..n - 1], i, now);
      assert alerts'[..n - 1] == alerts[..n - 1][i := alerts[i].(resolved := true, resolvedAt := Some(now))];
    }
  }

  /** What running one check does to its record, given what each check
      yields now. */
  function Checker(outcomes: string -> CheckOutcome, now: real): (string, HealthCheck) -> HealthCheck
  {
    (k, c) => CheckedRecord(c, outcomes(k), now)
  }

  /** How a check is classified after it ran. */
  function Classifier(outcomes: string -> CheckOutcome): (string, HealthCheck) -> HealthStatus
  {
    (k, c) => CheckStatus(c, outcomes(k))
  }

  /** One entry of the `checks` result. */
  datatype CheckReport = CheckReport(status: HealthStatus, description: string, consecutiveFailures: nat, error: Option<string>)

  /** Every listed check has a record. */
  predicate Covers(names: seq<string>, checks: map<string, HealthCheck>)
  {
    forall j :: 0 <= j < |names| ==> names[j] in checks
  }

  /** The overall status of the first `n` checks in `names`, each run once
      from its record in `checks`. */
  function OverallOf(checks: map<string, HealthCheck>, names: seq<string>, n: nat,
                     step: (string, HealthCheck) -> HealthCheck, grade: (string, HealthCheck) -> HealthStatus): HealthStatus
    requires n <= |names| && Covers(names, checks)
  {
    if n == 0 then Healthy
    else
      var k := names[n - 1];
      Worse(OverallOf(checks, names, n - 1, step, grade), grade(k, step(k, checks[k])))
  }

  /** The overall status is healthy exactly when every check passed, and
      unhealthy exactly when some check crashed or failed a third time in a
      row. */
  lemma {:induction false} OverallClassification(checks: map<string, HealthCheck>, names: seq<string>, n: nat,
                                                 outcomes: string -> CheckOutcome, now: real)
    requires n <= |names| && Covers(names, checks)
    ensures OverallOf(checks, names, n, Checker(outcomes, now), Classifier(outcomes)) == Healthy <==>
      forall i :: 0 <= i < n ==> outcomes(names[i]).Passed?
    ensures OverallOf(checks, names, n, Checker(outcomes, now), Classifier(outcomes)) == Unhealthy <==>
      exists i :: 0 <= i < n && (outcomes(names[i]).Crashed? ||
        (outcomes(names[i]).Failed? && checks[names[i]].consecutiveFailures + 1 >= 3))
  {
    if n > 0 {
      OverallClassification(checks, names, n - 1, outcomes, now);
      var k := names[n - 1];
      if outcomes(k).Crashed? || (outcomes(k).Failed? && checks[k].consecutiveFailures + 1 >= 3) {
        assert 0 <= n - 1 < n;
      }
    }
  }

  /** The records, the overall status so far and the reports while the
      checks run one after another. */
  datatype CheckRun = CheckRun(checks: map<string, HealthCheck>, overall: HealthStatus, reports: map<string, CheckReport>)

  /** The report of a check classified `status` with record `after`. */
  function ReportOf(status: HealthStatus, after: HealthCheck): CheckReport
  {
    CheckReport(status, after.description, after.consecutiveFailures, after.lastError)
  }

  /** One iteration of the loop: run `name`, record it, fold its status
      into the overall one and report it. */
  function RunOne(r: CheckRun, name: string,
                  step: (string, HealthCheck) -> HealthCheck, grade: (string, HealthCheck) -> HealthStatus): (r': CheckRun)
    requires name in r.checks
    ensures name in r'.checks
  {
    var record := step(name, r.checks[name]);
    var status := grade(name, record);
    CheckRun(r.checks[name := record], Worse(r.overall, status), r.reports[name := ReportOf(status, record)])
  }

  /** The state after running the first `n` checks of `names`. */
  function RunFirst(checks: map<string, HealthCheck>, names: seq<string>, n: nat,
                    step: (string, HealthCheck) -> HealthCheck, grade: (string, HealthCheck) -> HealthStatus): (r: CheckRun)
    requires n <= |names| && Covers(names, checks)
    ensures Covers(names, r.checks)
  {
    if n == 0 then CheckRun(checks, Healthy, map[])
    else RunOne(RunFirst(checks, names, n - 1, step, grade), names[n - 1], step, grade)
  }

  /** The loop of `run_health_checks`: each listed check is run in list
      order, its record updated, its report written and the overall status
      worsened by its status. */
  method RunChecksInOrder(checks: map<string, HealthCheck>, names: seq<string>,
                          outcomes: string -> CheckOutcome, now: real) returns (run: CheckRun)
    requires Covers(names, checks)
    ensures run == RunFirst(checks, names, |names|, Checker(outcomes, now), Classifier(outcomes))
  {
    var step, grade := Checker(outcomes, now), Classifier(outcomes);
    run := CheckRun(checks, Healthy, map[]);
    var i := 0;
    while i < |names|
      invariant 0 <= i <= |names|
      invariant run == RunFirst(checks, names, i, step, grade)
    {
      run := RunOne(run, names[i], step, grade);
      i := i + 1;
    }
  }

  /** Running checks adds no record, and reports only checks that exist. */
  lemma {:induction false} RunFirstKeys(checks: map<string, HealthCheck>, names: seq<string>, n: nat,
                                        step: (string, HealthCheck) -> HealthCheck,
                                        grade: (string, HealthCheck) -> HealthStatus)
    requires n <= |names| && Covers(names, checks)
    ensures RunFirst(checks, names, n, step, grade).checks.Keys == checks.Keys
    ensures RunFirst(checks, names, n, step, grade).reports.Keys <= checks.Keys
  {
    if n > 0 {
      RunFirstKeys(checks, names, n - 1, step, grade);
    }
  }

  /** A check not yet among the first `n` keeps its record. */
  lemma {:induction false} RunFirstUntouched(checks: map<string, HealthCheck>, names: seq<string>, n: nat,
                                             step: (string, HealthCheck) -> HealthCheck,
                                             grade: (string, HealthCheck) -> HealthStatus, j: nat)
    requires n <= j < |names|
    requires Covers(names, checks) && Distinct(names)
    ensures RunFirst(checks, names, n, step, grade).checks[names[j]] == checks[names[j]]
  {
    if n > 0 {
      RunFirstUntouched(checks, names, n - 1, step, grade, j);
      assert names[n - 1] != names[j];
    }
  }

  /** With distinct names, each of the first `n` checks has run exactly once
      and is reported with its new record. */
  lemma {:induction false} RunFirstRan(checks: map<string, HealthCheck>, names: seq<string>, n: nat,
                                       step: (string, HealthCheck) -> HealthCheck,
                                       grade: (string, HealthCheck) -> HealthStatus, j: nat)
    requires j < n <= |names|
    requires Covers(names, checks) && Distinct(names)
    ensures RunFirst(checks, names, n, step, grade).checks[names[j]] == step(names[j], checks[names[j]])
    ensures names[j] in RunFirst(checks, names, n, step, grade).reports
    ensures RunFirst(checks, names, n, step, grade).reports[names[j]] ==
      ReportOf(grade(names[j], step(names[j], checks[names[j]])), step(names[j], checks[names[j]]))
  {
    if j == n - 1 {
      RunFirstUntouched(checks, names, n - 1, step, grade, j);
    } else {
      RunFirstRan(checks, names, n - 1, step, grade, j);
      assert names[n - 1] != names[j];
    }
  }

  /** The status folded while running is the overall status of the checks. */
  lemma {:induction false} RunFirstOverall(checks: map<string, HealthCheck>, names: seq<string>, n: nat,
                                           step: (string, HealthCheck) -> HealthCheck,
                                           grade: (string, HealthCheck) -> HealthStatus)
    requires n <= |names|
    requires Covers(names, checks) && Distinct(names)
    ensures RunFirst(checks, names, n, step, grade).overall == OverallOf(checks, names, n, step, grade)
  {
    if n > 0 {
      RunFirstOverall(checks, names, n - 1, step, grade);
      RunFirstUntouched(checks, names, n - 1, step, grade, n - 1);
    }
  }

  /** Running every check once, over distinct names covering all checks,
      updates each record and reports each check with its new record. */
  lemma RunAllChecks(checks: map<string, HealthCheck>, names: seq<string>,
                     step: (string, HealthCheck) -> HealthCheck, grade: (string, HealthCheck) -> HealthStatus)
    requires Covers(names, checks) && Distinct(names)
    requires forall k :: k in checks ==> k in names
    ensures RunFirst(checks, names, |names|, step, grade).overall == OverallOf(checks, names, |names|, step, grade)
    ensures RunFirst(checks, names, |names|, step, grade).checks.Keys == checks.Keys
    ensures forall k :: k in checks ==>
      RunFirst(checks, names, |names|, step, grade).checks[k] == step(k, checks[k])
    ensures RunFirst(checks, names, |names|, step, grade).reports.Keys == checks.Keys
    ensures forall k :: k in checks ==>
      RunFirst(checks, names, |names|, step, grade).reports[k] == ReportOf(grade(k, step(k, checks[k])), step(k, checks[k]))
  {
    RunFirstOverall(checks, names, |names|, step, grade);
    RunFirstKeys(checks, names, |names|, step, grade);
    forall k | k in checks
      ensures RunFirst(checks, names, |names|, step, grade).checks[k] == step(k, checks[k])
      ensures k in RunFirst(checks, names, |names|, step, grade).reports
      ensures RunFirst(checks, names, |names|, step, grade).reports[k] ==
        ReportOf(grade(k, step(k, checks[k])), step(k, checks[k]))
    {
      var j :| 0 <= j < |names| && names[j] == k;
      RunFirstRan(checks, names, |names|, step, grade, j);
    }
  }

  /** The monitoring service's health checks and alerts. */
  class MonitoringService {
    /** Health-check names in registration order. */
    var checkNames: seq<string>
    var healthChecks: map<string, HealthCheck>
    var alerts: seq<Alert>

    ghost predicate Valid()
      reads this
    {
      && Distinct(checkNames)
      && Covers(checkNames, healthChecks)
      && (forall k :: k in healthChecks ==> k in checkNames)
    }

    constructor()
      ensures Valid() && checkNames == [] && healthChecks == map[] && alerts == []
    {
      checkNames, healthChecks, alerts := [], map[], [];
    }

    /** `add_health_check`: a fresh record; a name already present keeps
        its position. */
    method AddHealthCheck(name: string, description: string, timeout: real)
      requires Valid()
      modifies this
      ensures Valid()
      ensures healthChecks == old(healthChecks)[name := HealthCheck(name, description, timeout, None, true, None, 0)]
      ensures checkNames == if name in old(healthChecks) then old(checkNames) else old(checkNames) + [name]
      ensures alerts == old(alerts)
    {
      if name !in healthChecks {
        checkNames := checkNames + [name];
      }
      healthChecks := healthChecks[name := HealthCheck(name, description, timeout, None, true, None, 0)];
    }

    /** The status-classification loop of `run_health_checks`, each
        check's run reported by `outcomes`. The loop over the checks runs
        in `RunChecksInOrder` on a copy of the map, which is stored back
        afterwards; no other code observes the map in between. */
    method RunHealthChecks(outcomes: string -> CheckOutcome, now: real)
      returns (overall: HealthStatus, results: map<string, CheckReport>)
      requires Valid()
      modifies this
      ensures Valid()
      ensures checkNames == old(checkNames) && alerts == old(alerts)
      ensures healthChecks.Keys == old(healthChecks).Keys
      ensures forall k :: k in healthChecks ==>
        healthChecks[k] == CheckedRecord(old(healthChecks)[k], outcomes(k), now)
      ensures overall == OverallOf(old(healthChecks), checkNames, |checkNames|, Checker(outcomes, now), Classifier(outcomes))
      ensures results.Keys == healthChecks.Keys
      ensures forall k :: k in results ==>
        results[k] == ReportOf(CheckStatus(healthChecks[k], outcomes(k)), healthChecks[k])
    {
      var names := checkNames;
      var run := RunChecksInOrder(healthChecks, names, outcomes, now);
      RunAllChecks(healthChecks, names, Checker(outcomes, now), Classifier(outcomes));
      healthChecks, overall, results := run.checks, run.overall, run.reports;
    }

    /** `create_alert`: appends an unresolved alert and returns its id. */
    method CreateAlert(level: AlertLevel, message: string, component: string, now: real) returns (id: string)
      modifies this
      ensures id == AlertId(component, now)
      ensures alerts == old(alerts) + [Alert(id, level, message, now, component, false, None)]
      ensures checkNames == old(checkNames) && healthChecks == old(healthChecks)
    {
      id := AlertId(component, now);
      alerts := alerts + [Alert(id, level, message, now, component, false, None)];
    }

    /** `resolve_alert`: resolves the first unresolved alert with that id,
        if any, and says whether there was one. */
    method ResolveAlert(alertId: string, now: real) returns (found: bool)
      modifies this
      ensures found <==> exists i :: 0 <= i < |old(alerts)| && old(alerts)[i].id == alertId && !old(alerts)[i].resolved
      ensures !found ==> alerts == old(alerts)
      ensures found ==> exists i :: (0 <= i < |old(alerts)| && old(alerts)[i].id == alertId && !old(alerts)[i].resolved
        && (forall j :: 0 <= j < i ==> !(old(alerts)[j].id == alertId && !old(alerts)[j].resolved))
        && alerts == old(alerts)[i := old(alerts)[i].(resolved := true, resolvedAt := Some(now))])
      ensures checkNames == old(checkNames) && healthChecks == old(healthChecks)
    {
      var i := 0;
      while i < |alerts|
        invariant 0 <= i <= |alerts|
        invariant forall j :: 0 <= j < i ==> !(alerts[j].id == alertId && !alerts[j].resolved)
      {
        if alerts[i].id == alertId && !alerts[i].resolved {
          alerts := alerts[i := alerts[i].(resolved := true, resolvedAt := Some(now))];
          return true;
        }
        i := i + 1;
      }
      return false;
    }

    /** `get_active_alerts()`. */
    function GetActiveAlerts(): (r: seq<ActiveAlert>)
      reads this
      ensures r == ActiveAlerts(alerts)
    {
      ActiveAlerts(alerts)
    }
  }
}
