/** The batch quote fetcher: a watch list of symbols with update
    priorities, a legacy failure-count circuit breaker, exponential retry
    delays with jitter, the batch fetch with its bounded retry loop and
    bookkeeping, and the selection of symbols due for an update.

    The upstream quote API is an oracle `fetch(position, attempt)` giving
    the quote, or None, that the `attempt`-th try for the symbol at
    `position` of the batch yields; `jitter(position, attempt)` is the
    random number drawn before that retry; `now` is the clock in seconds. */
module BatchFetcher {
  import opened Values
  import opened StockQuotes

  datatype Priority = High | Medium | Low

  /** Seconds between updates of a symbol of each priority. */
  function UpdateInterval(p: Priority): real
  {
    match p
    case High => 5.0
    case Medium => 15.0
    case Low => 30.0
  }

  datatype SymbolConfig = SymbolConfig(
    symbol: string, priority: Priority, lastUpdated: Option<real>,
    updateCount: nat, errorCount: nat, lastError: Option<string>)

  function FreshConfig(symbol: string, priority: Priority): SymbolConfig
  {
    SymbolConfig(symbol, priority, None, 0, 0, None)
  }

  /** The config after a successful fetch at `now`. */
  function Refreshed(c: SymbolConfig, now: real): (r: SymbolConfig)
    ensures r.updateCount == c.updateCount + 1 && r.errorCount == 0
    ensures r.lastUpdated == Some(now) && r.lastError == None
    ensures r.symbol == c.symbol && r.priority == c.priority
  {
    c.(lastUpdated := Some(now), updateCount := c.updateCount + 1, errorCount := 0, lastError := None)
  }

  /** The config after every attempt for it failed, the last with `error`. */
  function Missed(c: SymbolConfig, error: Option<string>): (r: SymbolConfig)
    ensures r.errorCount == c.errorCount + 1 && r.lastError == error
    ensures r.updateCount == c.updateCount && r.lastUpdated == c.lastUpdated
    ensures r.symbol == c.symbol && r.priority == c.priority
  {
    c.(errorCount := c.errorCount + 1, lastError := error)
  }

  /** A symbol is due when it was never updated or its interval has passed. */
  predicate Due(c: SymbolConfig, now: real)
  {
    c.lastUpdated.None? || now - c.lastUpdated.value >= UpdateInterval(c.priority)
  }

  /** `s` without the element `x`, order kept. */
  function Without(s: seq<string>, x: string): (r: seq<string>)
    ensures forall y :: y in r <==> y in s && y != x
    ensures Distinct(s) ==> Distinct(r)
    ensures x !in s ==> r == s
    ensures |r| <= |s|
  {
    if |s| == 0 then []
    else
      var rest := Without(s[1..], x);
      assert s == [s[0]] + s[1..];
      assert Distinct(s) ==> Distinct(s[1..]) && s[0] !in s[1..];
      if s[0] == x then rest else [s[0]] + rest
  }

  /** The watched symbols that are due, in watch-list order. */
  function DueAmong(order: seq<string>, watched: map<string, SymbolConfig>, now: real): (r: seq<string>)
    requires forall i :: 0 <= i < |order| ==> order[i] in watched
    ensures forall x :: x in r <==> x in order && Due(watched[x], now)
  {
    if |order| == 0 then []
    else
      var rest := DueAmong(order[..|order| - 1], watched, now);
      var last := order[|order| - 1];
      assert forall y :: y in order <==> y in order[..|order| - 1] || y == last;
      if Due(watched[last], now) then rest + [last] else rest
  }

  // ---------------------------------------------------------------------
  // The legacy breaker
  // ---------------------------------------------------------------------

  const BreakerThreshold: nat := 5
  /** Seconds the breaker stays open once armed. */
  const BreakerTimeout: real := 300.0

  /** The breaker's fields. */
  datatype Breaker = Breaker(failures: nat, resetTime: Option<real>)

  /** `_is_circuit_breaker_open` at `now`: whether it reports open, and the
      fields it leaves behind (the check arms and resets the breaker). */
  function BreakerCheck(b: Breaker, now: real): (r: (bool, Breaker))
  {
    if b.failures < BreakerThreshold then (false, b)
    else if b.resetTime.None? then (true, b.(resetTime := Some(now + BreakerTimeout)))
    else if now >= b.resetTime.value then (false, Breaker(0, None))
    else (true, b)
  }

  /** Below the threshold the breaker is closed and the check changes
      nothing; at the threshold the first check arms the reset time and
      reports open; a check at or after the reset time zeroes the failures
      and reports closed; before it the breaker stays open. */
  lemma BreakerCheckCases(b: Breaker, now: real)
    ensures b.failures < BreakerThreshold ==> BreakerCheck(b, now) == (false, b)
    ensures b.failures >= BreakerThreshold && b.resetTime.None? ==>
      BreakerCheck(b, now) == (true, Breaker(b.failures, Some(now + BreakerTimeout)))
    ensures b.failures >= BreakerThreshold && b.resetTime.Some? && now >= b.resetTime.value ==>
      BreakerCheck(b, now) == (false, Breaker(0, None))
    ensures b.failures >= BreakerThreshold && b.resetTime.Some? && now < b.resetTime.value ==>
      BreakerCheck(b, now) == (true, b)
  {
  }

  /** Once armed at `now`, the breaker keeps reporting open for the whole
      timeout and closes (with its failures cleared) when it has elapsed. */
  lemma BreakerOpensForTimeout(b: Breaker, now: real, later: real)
    requires b.failures >= BreakerThreshold && b.resetTime.None?
    requires now <= later
    ensures var armed := BreakerCheck(b, now).1;
      && BreakerCheck(b, now).0
      && (later < now + BreakerTimeout ==> BreakerCheck(armed, later) == (true, armed))
      && (later >= now + BreakerTimeout ==> BreakerCheck(armed, later) == (false, Breaker(0, None)))
  {
  }

  // ---------------------------------------------------------------------
  // Retries
  // ---------------------------------------------------------------------

  function Pow2(n: nat): (p: nat)
    ensures p >= 1
  {
    if n == 0 then 1 else 2 * Pow2(n - 1)
  }

  /** The un-jittered delay before retry `attempt + 1`: `base * 2^attempt`. */
  function Backoff(attempt: nat, base: real): (b: real)
    ensures base >= 0.0 ==> b >= 0.0
  {
    base * Pow2(attempt) as real
  }

  /** `_calculate_retry_delay(attempt)` with `random.random()` = `r`: the
      backoff moved by up to a quarter either way, capped. */
  function RetryDelay(attempt: nat, r: real, base: real, cap: real): (d: real)
    ensures d <= cap
    ensures 0.0 <= r < 1.0 && base >= 0.0 ==> d <= Backoff(attempt, base) * 1.25
    ensures 0.0 <= r < 1.0 && base >= 0.0 ==> d == cap || d >= Backoff(attempt, base) * 0.75
  {
    var delay := Backoff(attempt, base);
    JitterBounds(delay, r);
    var jittered := delay + delay * 0.25 * (2.0 * r - 1.0);
    if jittered < cap then jittered else cap
  }

  lemma JitterBounds(delay: real, r: real)
    ensures delay >= 0.0 && 0.0 <= r < 1.0 ==>
      delay * 0.75 <= delay + delay * 0.25 * (2.0 * r - 1.0) <= delay * 1.25
  {
    assert delay * 0.25 * (2.0 * r - 1.0) == delay * (0.5 * r - 0.25);
  }

  /** Without the cap, the delays double from one retry to the next, up to
      the jitter. */
  lemma BackoffDoubles(attempt: nat, base: real)
    ensures Backoff(attempt + 1, base) == 2.0 * Backoff(attempt, base)
  {
  }

  /** The first attempt in `a..last` that yields a quote. */
  function FirstSuccess<Q>(fetch: (nat, nat) -> Option<Q>, p: nat, a: nat, last: int): (r: Option<nat>)
    ensures r.Some? ==> a <= r.value <= last && fetch(p, r.value).Some?
    ensures r.Some? ==> forall b :: a <= b < r.value ==> fetch(p, b).None?
    ensures r.None? ==> forall b :: a <= b <= last ==> fetch(p, b).None?
    decreases last + 1 - a
  {
    if a > last then None
    else if fetch(p, a).Some? then Some(a)
    else FirstSuccess(fetch, p, a + 1, last)
  }

  /** What the retry loop settles on for the symbol at position `p`:
      the quote of the first successful attempt among `0..maxRetries`. */
  function OutcomeAt<Q>(fetch: (nat, nat) -> Option<Q>, p: nat, maxRetries: int): Option<Q>
  {
    match FirstSuccess(fetch, p, 0, maxRetries)
    case Some(a) => fetch(p, a)
    case None => None
  }

  /** The sleeps of the retry loop for position `p`: one after each failed
      attempt but the last. */
  function WaitsAt<Q>(fetch: (nat, nat) -> Option<Q>, jitter: (nat, nat) -> real,
                   p: nat, maxRetries: int, base: real, cap: real): (w: seq<real>)
    ensures |w| <= if maxRetries < 0 then 0 else maxRetries
  {
    var tries := match FirstSuccess(fetch, p, 0, maxRetries)
                 case Some(a) => a
                 case None => if maxRetries < 0 then 0 else maxRetries;
    seq(tries, a requires 0 <= a < tries => RetryDelay(a, jitter(p, a), base, cap))
  }

  /** The error recorded for a symbol whose attempts all failed: the
      message of the last attempt, None when there was no attempt. */
  function LastError(maxRetries: int): Option<string>
  {
    if maxRetries >= 0 then Some(NoDataMessage) else None
  }

  const NoDataMessage: string := "No data returned from API"
  const UnknownErrorMessage: string := "Unknown error"
  const BreakerOpenMessage: string := "Circuit breaker is open, skipping batch fetch"

  /** `symbols[:limit]` as Python slices it (a negative limit counts from
      the end). */
  function Truncated(symbols: seq<string>, limit: int): (r: seq<string>)
    ensures limit >= 0 ==> r == symbols[..if |symbols| < limit then |symbols| else limit]
    ensures |r| <= |symbols| && r == symbols[..|r|]
  {
    if |symbols| <= limit then symbols
    else if limit >= 0 then symbols[..limit]
    else if |symbols| + limit >= 0 then symbols[..|symbols| + limit]
    else []
  }

  // ---------------------------------------------------------------------
  // The batch bookkeeping, over any symbol and quote type
  // ---------------------------------------------------------------------

  /** What a batch has accumulated: quotes and failures by symbol, the
      watched configs and the breaker's failure count. */
  datatype Tally<K, Q> = Tally(successful: map<K, Q>, failed: map<K, string>,
                               configs: map<K, SymbolConfig>, breakerFailures: nat)

  /** The bookkeeping for one processed symbol. */
  function RecordOutcome<K, Q>(t: Tally<K, Q>, symbol: K, outcome: Option<Q>, error: Option<string>, now: real): Tally<K, Q>
  {
    match outcome
    case Some(q) =>
      Tally(t.successful[symbol := q], t.failed,
            if symbol in t.configs then t.configs[symbol := Refreshed(t.configs[symbol], now)] else t.configs,
            t.breakerFailures)
    case None =>
      Tally(t.successful, t.failed[symbol := if error.Some? then error.value else UnknownErrorMessage],
            if symbol in t.configs then t.configs[symbol := Missed(t.configs[symbol], error)] else t.configs,
            t.breakerFailures + 1)
  }

  /** The bookkeeping for the first `n` symbols of the batch. */
  function RecordAll<K, Q>(t: Tally<K, Q>, symbols: seq<K>, outcomes: seq<Option<Q>>, n: nat,
                           error: Option<string>, now: real): Tally<K, Q>
    requires n <= |symbols| == |outcomes|
  {
    if n == 0 then t
    else RecordOutcome(RecordAll(t, symbols, outcomes, n - 1, error, now), symbols[n - 1], outcomes[n - 1], error, now)
  }

  /** The number of failed outcomes among the first `n`. */
  function FailureCount<Q>(outcomes: seq<Option<Q>>, n: nat): nat
    requires n <= |outcomes|
  {
    if n == 0 then 0 else FailureCount(outcomes, n - 1) + (if outcomes[n - 1].None? then 1 else 0)
  }

  /** Every processed symbol ends up among the successes or the failures
      (or both), nothing else does, no config is added, and every failed
      outcome counts once towards the breaker. */
  lemma {:induction false} RecordAllCovers<K, Q>(t: Tally<K, Q>, symbols: seq<K>, outcomes: seq<Option<Q>>, n: nat,
                                                 error: Option<string>, now: real)
    requires n <= |symbols| == |outcomes|
    ensures var r := RecordAll(t, symbols, outcomes, n, error, now);
      && (forall p :: 0 <= p < n ==> symbols[p] in r.successful || symbols[p] in r.failed)
      && (forall k :: k in r.successful ==> k in t.successful || exists p :: 0 <= p < n && symbols[p] == k && outcomes[p].Some?)
      && (forall k :: k in r.failed ==> k in t.failed || exists p :: 0 <= p < n && symbols[p] == k && outcomes[p].None?)
      && r.configs.Keys == t.configs.Keys
      && r.breakerFailures == t.breakerFailures + FailureCount(outcomes, n)
  {
    if n > 0 {
      RecordAllCovers(t, symbols, outcomes, n - 1, error, now);
    }
  }

  /** A symbol not among the first `n` is not touched. */
  lemma {:induction false} RecordAllElsewhere<K, Q>(t: Tally<K, Q>, symbols: seq<K>, outcomes: seq<Option<Q>>, n: nat,
                                                    error: Option<string>, now: real, k: K)
    requires n <= |symbols| == |outcomes|
    requires forall p :: 0 <= p < n ==> symbols[p] != k
    ensures var r := RecordAll(t, symbols, outcomes, n, error, now);
      && (k in r.successful <==> k in t.successful)
      && (k in r.failed <==> k in t.failed)
      && (k in t.configs ==> k in r.configs && r.configs[k] == t.configs[k])
  {
    if n > 0 {
      RecordAllElsewhere(t, symbols, outcomes, n - 1, error, now, k);
    }
  }

  /** With distinct symbols, starting from no results, each processed
      symbol is a success exactly when its outcome is a quote (and then
      carries it), a failure exactly otherwise, and its config, if
      watched, is refreshed or marked missed accordingly. */
  lemma {:induction false} RecordAllDistinct<K, Q>(t: Tally<K, Q>, symbols: seq<K>, outcomes: seq<Option<Q>>, n: nat,
                                                   error: Option<string>, now: real, p: nat)
    requires n <= |symbols| == |outcomes| && p < n
    requires Distinct(symbols)
    requires t.successful == map[] && t.failed == map[]
    ensures var r := RecordAll(t, symbols, outcomes, n, error, now);
      && (symbols[p] in r.successful <==> outcomes[p].Some?)
      && (symbols[p] in r.failed <==> outcomes[p].None?)
      && (outcomes[p].Some? ==> r.successful[symbols[p]] == outcomes[p].value)
      && (outcomes[p].None? ==> r.failed[symbols[p]] == if error.Some? then error.value else UnknownErrorMessage)
      && (symbols[p] in t.configs ==>
            symbols[p] in r.configs &&
            (r.configs[symbols[p]] ==
             if outcomes[p].Some? then Refreshed(t.configs[symbols[p]], now) else Missed(t.configs[symbols[p]], error)))
  {
    var k := symbols[p];
    if p == n - 1 {
      RecordAllElsewhere(t, symbols, outcomes, n - 1, error, now, k);
    } else {
      RecordAllDistinct(t, symbols, outcomes, n - 1, error, now, p);
      assert symbols[n - 1] != k;
    }
  }

  /** With distinct symbols the successes and the failures are disjoint
      and together are exactly the processed symbols. */
  lemma RecordAllPartition<K, Q>(t: Tally<K, Q>, symbols: seq<K>, outcomes: seq<Option<Q>>,
                                 error: Option<string>, now: real)
    requires |symbols| == |outcomes|
    requires Distinct(symbols)
    requires t.successful == map[] && t.failed == map[]
    ensures var r := RecordAll(t, symbols, outcomes, |symbols|, error, now);
      && (forall k :: k in r.successful ==> k !in r.failed)
      && (forall k :: k in r.successful || k in r.failed <==> k in symbols)
  {
    var r := RecordAll(t, symbols, outcomes, |symbols|, error, now);
    RecordAllCovers(t, symbols, outcomes, |symbols|, error, now);
    forall k | k in r.successful
      ensures k !in r.failed
    {
      var p :| 0 <= p < |symbols| && symbols[p] == k && outcomes[p].Some?;
      RecordAllDistinct(t, symbols, outcomes, |symbols|, error, now, p);
    }
  }

  /** Without distinct symbols the two result maps can overlap: a symbol
      that fails and then succeeds later in the same batch is in both. */
  lemma DuplicateInBothMaps(t: Tally<string, int>, now: real)
    requires t.successful == map[] && t.failed == map[]
    ensures var r := RecordAll(t, ["A", "A"], [None, Some(7)], 2, Some(NoDataMessage), now);
      "A" in r.successful && "A" in r.failed
  {
  }

  /** The quotes of the first `n` positions, as the retry loop settles them. */
  function Outcomes<Q>(fetch: (nat, nat) -> Option<Q>, n: nat, maxRetries: int): (r: seq<Option<Q>>)
    ensures |r| == n
    ensures forall p :: 0 <= p < n ==> r[p] == OutcomeAt(fetch, p, maxRetries)
  {
    if n == 0 then [] else Outcomes(fetch, n - 1, maxRetries) + [OutcomeAt(fetch, n - 1, maxRetries)]
  }

  /** The sleeps of the first `n` positions, in order. */
  function AllWaits<Q>(fetch: (nat, nat) -> Option<Q>, jitter: (nat, nat) -> real,
                    n: nat, maxRetries: int, base: real, cap: real): seq<real>
  {
    if n == 0 then [] else AllWaits(fetch, jitter, n - 1, maxRetries, base, cap) + WaitsAt(fetch, jitter, n - 1, maxRetries, base, cap)
  }

  /** For a batch without repeated symbols: a symbol ends among the
      successes exactly when one of its `maxRetries + 1` attempts returned a
      quote, and otherwise among the failures with the last attempt's
      message, or "Unknown error" when no attempt was made. */
  lemma BatchSymbolOutcome<Q>(watched: map<string, SymbolConfig>, failures: nat, batch: seq<string>,
                           fetch: (nat, nat) -> Option<Q>, maxRetries: int, now: real, p: nat)
    requires Distinct(batch) && p < |batch|
    ensures var tally := RecordAll(Tally(map[], map[], watched, failures), batch,
                                   Outcomes(fetch, |batch|, maxRetries), |batch|, LastError(maxRetries), now);
      && (batch[p] in tally.successful <==> exists a :: 0 <= a <= maxRetries && fetch(p, a).Some?)
      && (batch[p] in tally.failed <==> !exists a :: 0 <= a <= maxRetries && fetch(p, a).Some?)
      && (batch[p] in tally.failed ==>
            tally.failed[batch[p]] == if maxRetries >= 0 then NoDataMessage else UnknownErrorMessage)
  {
    var outcomes := Outcomes(fetch, |batch|, maxRetries);
    RecordAllDistinct(Tally(map[], map[], watched, failures), batch, outcomes, |batch|, LastError(maxRetries), now, p);
    match FirstSuccess(fetch, p, 0, maxRetries)
    case Some(a) =>
    case None =>
  }

  /** The retry loop of `fetch_batch_quotes` for the symbol at position
      `p`: up to `maxRetries + 1` attempts, stopping at the first quote,
      sleeping between attempts. */
  method FetchWithRetries<Q>(p: nat, fetch: (nat, nat) -> Option<Q>, jitter: (nat, nat) -> real,
                          maxRetries: int, baseRetryDelay: real, maxRetryDelay: real)
    returns (quote: Option<Q>, lastError: Option<string>, waits: seq<real>)
    ensures quote == OutcomeAt(fetch, p, maxRetries)
    ensures quote.None? ==> lastError == LastError(maxRetries)
    ensures waits == WaitsAt(fetch, jitter, p, maxRetries, baseRetryDelay, maxRetryDelay)
  {
    quote, lastError, waits := None, None, [];
    var attempt := 0;
    while attempt <= maxRetries
      invariant 0 <= attempt <= if maxRetries < 0 then 0 else maxRetries + 1
      invariant quote.None?
      invariant FirstSuccess(fetch, p, 0, maxRetries) == FirstSuccess(fetch, p, attempt, maxRetries)
      invariant attempt > 0 ==> lastError == Some(NoDataMessage)
      invariant attempt == 0 ==> lastError == None
      invariant |waits| == if attempt <= maxRetries then attempt else if maxRetries < 0 then 0 else maxRetries
      invariant forall a :: 0 <= a < |waits| ==> waits[a] == RetryDelay(a, jitter(p, a), baseRetryDelay, maxRetryDelay)
    {
      var got := fetch(p, attempt);
      if got.Some? {
        quote := got;
        break;
      }
      lastError := Some(NoDataMessage);
      if attempt < maxRetries {
        waits := waits + [RetryDelay(attempt, jitter(p, attempt), baseRetryDelay, maxRetryDelay)];
      }
      attempt := attempt + 1;
    }
  }

  /** The bookkeeping of `fetch_batch_quotes` once the attempts for
      `symbol` are over: the quote, or the failure with the last error
      (the breaker counts it), and the watched config if there is one. */
  method RecordFetch<Q>(successful: map<string, Q>, failed: map<string, string>,
                        configs: map<string, SymbolConfig>, failures: nat,
                        symbol: string, quote: Option<Q>, lastError: Option<string>, now: real)
    returns (successful': map<string, Q>, failed': map<string, string>,
             configs': map<string, SymbolConfig>, failures': nat)
    ensures Tally(successful', failed', configs', failures') ==
      RecordOutcome(Tally(successful, failed, configs, failures), symbol, quote, lastError, now)
  {
    successful', failed', configs', failures' := successful, failed, configs, failures;
    if quote.Some? {
      successful' := successful'[symbol := quote.value];
      if symbol in configs' {
        configs' := configs'[symbol := Refreshed(configs'[symbol], now)];
      }
    } else {
      failed' := failed'[symbol := if lastError.Some? then lastError.value else UnknownErrorMessage];
      failures' := failures' + 1;
      if symbol in configs' {
        configs' := configs'[symbol := Missed(configs'[symbol], lastError)];
      }
    }
  }

  /** A successful outcome is recorded the same whatever the last error. */
  lemma RecordSuccessIgnoresError<K, Q>(t: Tally<K, Q>, symbol: K, quote: Q, e1: Option<string>, e2: Option<string>, now: real)
    ensures RecordOutcome(t, symbol, Some(quote), e1, now) == RecordOutcome(t, symbol, Some(quote), e2, now)
  {
  }

  /** The per-symbol loop of `fetch_batch_quotes` over the (already
      truncated) batch, on local copies of the configs and the breaker's
      failure count. */
  method FetchAll<Q>(batch: seq<string>, configs0: map<string, SymbolConfig>, failures0: nat, now: real,
                  fetch: (nat, nat) -> Option<Q>, jitter: (nat, nat) -> real,
                  maxRetries: int, baseRetryDelay: real, maxRetryDelay: real)
    returns (successful: map<string, Q>, failed: map<string, string>,
             configs: map<string, SymbolConfig>, failures: nat, waits: seq<real>)
    ensures Tally(successful, failed, configs, failures) ==
      RecordAll(Tally(map[], map[], configs0, failures0), batch, Outcomes(fetch, |batch|, maxRetries),
                |batch|, LastError(maxRetries), now)
    ensures waits == AllWaits(fetch, jitter, |batch|, maxRetries, baseRetryDelay, maxRetryDelay)
    ensures configs.Keys == configs0.Keys
  {
    ghost var start := Tally(map[], map[], configs0, failures0);
    ghost var outcomes := Outcomes(fetch, |batch|, maxRetries);
    successful, failed, configs, failures, waits := map[], map[], configs0, failures0, [];
    var i := 0;
    while i < |batch|
      invariant 0 <= i <= |batch|
      invariant Tally(successful, failed, configs, failures) == RecordAll(start, batch, outcomes, i, LastError(maxRetries), now)
      invariant waits == AllWaits(fetch, jitter, i, maxRetries, baseRetryDelay, maxRetryDelay)
    {
      var quote, lastError, w := FetchWithRetries(i, fetch, jitter, maxRetries, baseRetryDelay, maxRetryDelay);
      if quote.Some? {
        RecordSuccessIgnoresError(Tally(successful, failed, configs, failures), batch[i], quote.value,
                                  lastError, LastError(maxRetries), now);
      }
      successful, failed, configs, failures := RecordFetch(successful, failed, configs, failures, batch[i], quote, lastError, now);
      waits := waits + w;
      i := i + 1;
    }
    RecordAllCovers(start, batch, outcomes, |batch|, LastError(maxRetries), now);
  }


  /** The watch list: each symbol once, in the order added, and exactly
      the symbols that have a config. */
  ghost predicate WatchList(order: seq<string>, watched: map<string, SymbolConfig>)
  {
    && Distinct(order)
    && (forall i :: 0 <= i < |order| ==> order[i] in watched)
    && (forall k :: k in watched ==> k in order)
  }

  /** Only the symbols with a config matter to the watch list. */
  lemma WatchListKeys(order: seq<string>, w1: map<string, SymbolConfig>, w2: map<string, SymbolConfig>)
    requires w1.Keys == w2.Keys && WatchList(order, w1)
    ensures WatchList(order, w2)
  {
  }

  datatype BatchResult = BatchResult(successfulQuotes: map<string, StockQuote>, failedSymbols: map<string, string>, fetchTime: real)

  /** `get_performance_stats()`; the failure count is read before the
      breaker check that follows it in the same dictionary. */
  datatype PerformanceStats = PerformanceStats(
    totalRequests: nat, successfulRequests: nat, failedRequests: nat, successRatePercent: real,
    watchedSymbolsCount: nat, breakerFailures: nat, breakerOpen: bool, lastBatchTime: Option<real>)

  /** `round(successful / total * 100, 2)`, 0 without requests. */
  function SuccessRate(successful: nat, total: nat): (rate: real)
    requires successful <= total
    ensures 0.0 <= rate <= 100.0
  {
    if total == 0 then 0.0
    else
      var x := successful as real / total as real * 100.0;
      RateBounds(successful, total);
      RoundPercentBounds(x);
      Round(x, 2)
  }

  lemma RateBounds(successful: nat, total: nat)
    requires 0 < total && successful <= total
    ensures 0.0 <= successful as real / total as real * 100.0 <= 100.0
  {
    assert successful as real / total as real <= 1.0;
  }

  lemma RoundPercentBounds(x: real)
    requires 0.0 <= x <= 100.0
    ensures 0.0 <= Round(x, 2) <= 100.0
  {
    assert Pow10(2) == 100;
    var n := RoundScaled(x * 100.0);
    assert -0.5 <= n as real <= 10000.5;
    assert 0 <= n <= 10000;
  }

  /** The request counters of the fetcher. */
  datatype Requests = Requests(total: nat, successful: nat, failed: nat, lastBatchTime: Option<real>)

  /** No more successful or failed batches than batches. */
  predicate Counted(r: Requests)
  {
    r.successful <= r.total && r.failed <= r.total
  }

  /** The counters after a batch at `now`: one more batch, one more
      successful batch if any quote came back, one more failed batch if
      any symbol failed (a batch can be both). */
  function CountBatch(r: Requests, anySuccess: bool, anyFailure: bool, now: real): (r': Requests)
    ensures r'.total == r.total + 1 && r'.lastBatchTime == Some(now)
    ensures r'.successful == r.successful + (if anySuccess then 1 else 0)
    ensures r'.failed == r.failed + (if anyFailure then 1 else 0)
    ensures Counted(r) ==> Counted(r')
  {
    Requests(r.total + 1, if anySuccess then r.successful + 1 else r.successful,
             if anyFailure then r.failed + 1 else r.failed, Some(now))
  }

  class BatchDataFetcher {
    const maxBatchSize: int
    const maxRetries: int
    const baseRetryDelay: real
    const maxRetryDelay: real

    /** Watched symbols in the order they were added. */
    var watchOrder: seq<string>
    var watched: map<string, SymbolConfig>
    /** The names of the update callbacks, in the order added. */
    var updateCallbacks: seq<string>

    var breaker: Breaker
    var requests: Requests

    ghost predicate Valid()
      reads this
    {
      WatchList(watchOrder, watched) && Counted(requests)
    }

    constructor(maxBatchSize: int, maxRetries: int, baseRetryDelay: real, maxRetryDelay: real)
      ensures Valid()
      ensures this.maxBatchSize == maxBatchSize && this.maxRetries == maxRetries
      ensures this.baseRetryDelay == baseRetryDelay && this.maxRetryDelay == maxRetryDelay
      ensures watchOrder == [] && watched == map[] && updateCallbacks == []
      ensures breaker == Breaker(0, None) && requests == Requests(0, 0, 0, None)
    {
      this.maxBatchSize := maxBatchSize;
      this.maxRetries := maxRetries;
      this.baseRetryDelay := baseRetryDelay;
      this.maxRetryDelay := maxRetryDelay;
      watchOrder, watched, updateCallbacks := [], map[], [];
      breaker, requests := Breaker(0, None), Requests(0, 0, 0, None);
    }

    /** `add_symbol_to_watch`: a fresh config, unless already watched. */
    method AddSymbolToWatch(symbol: string, priority: Priority) returns (added: bool)
      requires Valid()
      modifies this
      ensures Valid()
      ensures added <==> symbol !in old(watched)
      ensures added ==> watched == old(watched)[symbol := FreshConfig(symbol, priority)]
      ensures added ==> watchOrder == old(watchOrder) + [symbol]
      ensures !added ==> watched == old(watched) && watchOrder == old(watchOrder)
      ensures updateCallbacks == old(updateCallbacks) && breaker == old(breaker) && requests == old(requests)
    {
      if symbol in watched {
        return false;
      }
      watched := watched[symbol := FreshConfig(symbol, priority)];
      watchOrder := watchOrder + [symbol];
      added := true;
    }

    /** `remove_symbol_from_watch`. */
    method RemoveSymbolFromWatch(symbol: string) returns (removed: bool)
      requires Valid()
      modifies this
      ensures Valid()
      ensures removed <==> symbol in old(watched)
      ensures watched == old(watched) - {symbol}
      ensures watchOrder == Without(old(watchOrder), symbol)
      ensures updateCallbacks == old(updateCallbacks) && breaker == old(breaker) && requests == old(requests)
    {
      if symbol !in watched {
        return false;
      }
      watched := watched - {symbol};
      watchOrder := Without(watchOrder, symbol);
      forall i | 0 <= i < |watchOrder|
        ensures watchOrder[i] in watched
      {
        assert watchOrder[i] in watchOrder;
      }
      removed := true;
    }

    /** `update_symbol_priority`: only the priority of a watched symbol. */
    method UpdateSymbolPriority(symbol: string, priority: Priority) returns (updated: bool)
      requires Valid()
      modifies this
      ensures Valid()
      ensures updated <==> symbol in old(watched)
      ensures updated ==> watched == old(watched)[symbol := old(watched)[symbol].(priority := priority)]
      ensures !updated ==> watched == old(watched)
      ensures watchOrder == old(watchOrder)
      ensures updateCallbacks == old(updateCallbacks) && breaker == old(breaker) && requests == old(requests)
    {
      if symbol !in watched {
        return false;
      }
      WatchListKeys(watchOrder, watched, watched[symbol := watched[symbol].(priority := priority)]);
      watched := watched[symbol := watched[symbol].(priority := priority)];
      updated := true;
    }

    /** `add_update_callback`. */
    method AddUpdateCallback(callback: string)
      modifies this
      ensures updateCallbacks == old(updateCallbacks) + [callback]
      ensures watchOrder == old(watchOrder) && watched == old(watched)
      ensures breaker == old(breaker) && requests == old(requests)
    {
      updateCallbacks := updateCallbacks + [callback];
    }

    /** `_is_circuit_breaker_open`: reports and updates the breaker. */
    method IsCircuitBreakerOpen(now: real) returns (open: bool)
      modifies this
      ensures (open, breaker) == BreakerCheck(old(breaker), now)
      ensures watchOrder == old(watchOrder) && watched == old(watched) && updateCallbacks == old(updateCallbacks)
      ensures requests == old(requests)
    {
      if breaker.failures < BreakerThreshold {
        return false;
      }
      if breaker.resetTime.None? {
        breaker := breaker.(resetTime := Some(now + BreakerTimeout));
        return true;
      }
      if now >= breaker.resetTime.value {
        breaker := Breaker(0, None);
        return false;
      }
      open := true;
    }

    /** The part of `fetch_batch_quotes` after the breaker was found
        closed: the truncated batch, the bookkeeping and the callbacks. */
    method RunBatch(symbols: seq<string>, now: real,
                    fetch: (nat, nat) -> Option<StockQuote>, jitter: (nat, nat) -> real)
      returns (result: BatchResult, waits: seq<real>, notified: seq<string>)
      requires Valid()
      modifies this
      ensures Valid()
      ensures watchOrder == old(watchOrder) && updateCallbacks == old(updateCallbacks)
      ensures var batch := Truncated(symbols, maxBatchSize);
        var tally := RecordAll(Tally(map[], map[], old(watched), old(breaker).failures), batch,
                               Outcomes(fetch, |batch|, maxRetries), |batch|, LastError(maxRetries), now);
        && result == BatchResult(tally.successful, tally.failed, now)
        && watched == tally.configs
        && breaker == old(breaker).(failures := tally.breakerFailures)
        && waits == AllWaits(fetch, jitter, |batch|, maxRetries, baseRetryDelay, maxRetryDelay)
        && requests == CountBatch(old(requests), |tally.successful| > 0, |tally.failed| > 0, now)
        && notified == (if |tally.successful| > 0 then updateCallbacks else [])
    {
      var batch := Truncated(symbols, maxBatchSize);
      var successful, failed, configs, failures;
      successful, failed, configs, failures, waits := FetchAll(batch, watched, breaker.failures, now, fetch, jitter,
                                                          maxRetries, baseRetryDelay, maxRetryDelay);
      WatchListKeys(watchOrder, watched, configs);
      watched, breaker := configs, breaker.(failures := failures);
      requests := CountBatch(requests, |successful| > 0, |failed| > 0, now);
      notified := if |successful| > 0 then updateCallbacks else [];
      result := BatchResult(successful, failed, now);
    }

    /** `fetch_batch_quotes(symbols)` at `now`. Returns the batch result,
        the sleeps taken between attempts and the update callbacks run
        (each with the successful quotes). */
    method FetchBatchQuotes(symbols: seq<string>, now: real,
                            fetch: (nat, nat) -> Option<StockQuote>, jitter: (nat, nat) -> real)
      returns (result: BatchResult, waits: seq<real>, notified: seq<string>)
      requires Valid()
      modifies this
      ensures Valid()
      ensures watchOrder == old(watchOrder) && updateCallbacks == old(updateCallbacks)
      ensures result.fetchTime == now
      ensures BreakerCheck(old(breaker), now).0 ==>
        && result.successfulQuotes == map[]
        && result.failedSymbols == (map s | s in symbols :: BreakerOpenMessage)
        && waits == [] && notified == []
        && breaker == BreakerCheck(old(breaker), now).1 && watched == old(watched)
        && requests == old(requests)
      ensures !BreakerCheck(old(breaker), now).0 ==>
        var checked := BreakerCheck(old(breaker), now).1;
        var batch := Truncated(symbols, maxBatchSize);
        var tally := RecordAll(Tally(map[], map[], old(watched), checked.failures), batch,
                               Outcomes(fetch, |batch|, maxRetries), |batch|, LastError(maxRetries), now);
        && result.successfulQuotes == tally.successful
        && result.failedSymbols == tally.failed
        && watched == tally.configs
        && breaker == checked.(failures := tally.breakerFailures)
        && waits == AllWaits(fetch, jitter, |batch|, maxRetries, baseRetryDelay, maxRetryDelay)
        && requests == CountBatch(old(requests), |tally.successful| > 0, |tally.failed| > 0, now)
        && notified == (if |tally.successful| > 0 then updateCallbacks else [])
    {
      var open := IsCircuitBreakerOpen(now);
      if open {
        result := BatchResult(map[], map s | s in symbols :: BreakerOpenMessage, now);
        return result, [], [];
      }
      result, waits, notified := RunBatch(symbols, now, fetch, jitter);
    }

    /** `get_symbols_needing_update` at `now`, in watch-list order. */
    method GetSymbolsNeedingUpdate(now: real) returns (due: seq<string>)
      requires Valid()
      ensures due == DueAmong(watchOrder, watched, now)
      ensures forall x :: x in due <==> x in watched && Due(watched[x], now)
    {
      due := [];
      var i := 0;
      while i < |watchOrder|
        invariant 0 <= i <= |watchOrder|
        invariant due == DueAmong(watchOrder[..i], watched, now)
      {
        assert watchOrder[..i + 1][..i] == watchOrder[..i];
        var symbol := watchOrder[i];
        if Due(watched[symbol], now) {
          due := due + [symbol];
        }
        i := i + 1;
      }
      assert watchOrder[..i] == watchOrder;
    }

    /** `get_performance_stats` at `now`; it runs the breaker check, which
        may arm or reset the breaker. */
    method GetPerformanceStats(now: real) returns (stats: PerformanceStats)
      requires Valid()
      modifies this
      ensures Valid()
      ensures (stats.breakerOpen, breaker) == BreakerCheck(old(breaker), now)
      ensures stats.breakerFailures == old(breaker).failures
      ensures stats.totalRequests == requests.total && stats.successfulRequests == requests.successful
      ensures stats.failedRequests == requests.failed && stats.lastBatchTime == requests.lastBatchTime
      ensures stats.successRatePercent == SuccessRate(requests.successful, requests.total)
      ensures 0.0 <= stats.successRatePercent <= 100.0
      ensures stats.watchedSymbolsCount == |watched|
      ensures watchOrder == old(watchOrder) && watched == old(watched) && updateCallbacks == old(updateCallbacks)
      ensures requests == old(requests)
    {
      var rate := SuccessRate(requests.successful, requests.total);
      var failures := breaker.failures;
      var open := IsCircuitBreakerOpen(now);
      stats := PerformanceStats(requests.total, requests.successful, requests.failed, rate,
                                |watched|, failures, open, requests.lastBatchTime);
    }
  }
}
