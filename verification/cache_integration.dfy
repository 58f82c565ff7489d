/** The glue between the batch fetcher, the quote cache and the
    subscription manager: read-through lookups with hit and miss counters,
    invalidate-and-refresh, the essential-stock set mirrored into the
    fetcher's watch list, cache warming and the warming run flag.
    The cache is a map from symbol to quote whose writes fail for the
    symbols in a given set; what a batch fetch returns is supplied by a
    function from the requested symbols to the quotes fetched. */
module CacheIntegration {
  import opened Values
  import opened StockQuotes
  import BatchFetcher
  import WebSockets
  import Sockets

  /** The quotes a set of writes stores: those whose write does not fail. */
  function Written(quotes: map<string, StockQuote>, failing: set<string>): (r: map<string, StockQuote>)
    ensures r.Keys == quotes.Keys - failing
    ensures forall s :: s in r ==> r[s] == quotes[s]
  {
    map s | s in quotes && s !in failing :: quotes[s]
  }

  /** `data` is `before` with the quotes of `done` whose writes succeed
      written over it. */
  ghost predicate WrittenSoFar(data: map<string, StockQuote>, before: map<string, StockQuote>,
                               quotes: map<string, StockQuote>, failing: set<string>, done: set<string>)
  {
    && (forall s :: s in data <==> s in before || (s in done && s in quotes && s !in failing))
    && (forall s :: s in data ==>
          data[s] == if s in done && s in quotes && s !in failing then quotes[s] else before[s])
  }

  /** Once every quote was written, the cache is `before` overwritten by
      the successful writes. */
  lemma WrittenAll(data: map<string, StockQuote>, before: map<string, StockQuote>,
                   quotes: map<string, StockQuote>, failing: set<string>)
    requires WrittenSoFar(data, before, quotes, failing, quotes.Keys)
    ensures data == before + Written(quotes, failing)
  {
    var r := before + Written(quotes, failing);
    assert data.Keys == r.Keys;
    forall s | s in data
      ensures data[s] == r[s]
    {
    }
  }

  /** Writing the same quotes a second time changes nothing: the cache
      after `_handle_batch_updates` and `warm_cache` of one fetch is the
      cache after either alone. */
  lemma WrittenTwice(before: map<string, StockQuote>, quotes: map<string, StockQuote>, failing: set<string>)
    ensures before + Written(quotes, failing) + Written(quotes, failing) == before + Written(quotes, failing)
  {
  }

  /** How many of `symbols` have writes that succeed. */
  function Successes(symbols: seq<string>, failing: set<string>): nat
  {
    if |symbols| == 0 then 0
    else Successes(symbols[..|symbols| - 1], failing) + (if symbols[|symbols| - 1] in failing then 0 else 1)
  }

  /** Over symbols without repeats, that is the number of them outside
      `failing`. */
  lemma {:induction false} SuccessesCount(symbols: seq<string>, failing: set<string>)
    requires Distinct(symbols)
    ensures Successes(symbols, failing) == |WebSockets.Members(symbols) - failing|
  {
    if |symbols| > 0 {
      var init := symbols[..|symbols| - 1];
      var x := symbols[|symbols| - 1];
      SuccessesCount(init, failing);
      assert x !in init;
      assert WebSockets.Members(symbols) == WebSockets.Members(init) + {x};
      if x in failing {
        assert WebSockets.Members(symbols) - failing == WebSockets.Members(init) - failing;
      } else {
        assert WebSockets.Members(symbols) - failing == (WebSockets.Members(init) - failing) + {x};
      }
    }
  }

  /** The quote cache, a map from symbol to quote. */
  class CacheStore {
    var data: map<string, StockQuote>

    constructor()
      ensures data == map[]
    {
      data := map[];
    }

    /** `refresh_stock_data(symbol, quote, publish=True)`: the write
        succeeds unless the symbol's write fails. */
    method RefreshStockData(symbol: string, quote: StockQuote, failing: set<string>) returns (ok: bool)
      modifies this
      ensures ok <==> symbol !in failing
      ensures data == if ok then old(data)[symbol := quote] else old(data)
    {
      ok := symbol !in failing;
      if ok {
        data := data[symbol := quote];
      }
    }

    /** `invalidate_stock_data(symbol)`. */
    method InvalidateStockData(symbol: string)
      modifies this
      ensures data == old(data) - {symbol}
    {
      data := data - {symbol};
    }

    /** The loop of `_handle_batch_updates`: each quote, in the dict's
        order, is written with `RefreshStockData`, and the successful
        writes are counted. */
    method RefreshEach(quotes: map<string, StockQuote>, failing: set<string>) returns (count: nat)
      modifies this
      ensures count == |Written(quotes, failing)|
      ensures data == old(data) + Written(quotes, failing)
    {
      var order := Listed(quotes.Keys);
      count := 0;
      var i := 0;
      while i < |order|
        invariant 0 <= i <= |order|
        invariant count == Successes(order[..i], failing)
        invariant WrittenSoFar(data, old(data), quotes, failing, WebSockets.Members(order[..i]))
      {
        var symbol := order[i];
        assert order[..i + 1][..i] == order[..i];
        assert WebSockets.Members(order[..i + 1]) == WebSockets.Members(order[..i]) + {symbol};
        var ok := RefreshStockData(symbol, quotes[symbol], failing);
        if ok {
          count := count + 1;
        }
        i := i + 1;
      }
      assert order[..i] == order;
      SuccessesCount(order, failing);
      WrittenAll(data, old(data), quotes, failing);
    }

    /** The invalidation loop of `invalidate_and_refresh`: each symbol's
        entry is removed. */
    method InvalidateEach(symbols: seq<string>)
      modifies this
      ensures data == old(data) - WebSockets.Members(symbols)
    {
      var i := 0;
      while i < |symbols|
        invariant 0 <= i <= |symbols|
        invariant data == old(data) - WebSockets.Members(symbols[..i])
      {
        assert WebSockets.Members(symbols[..i + 1]) == WebSockets.Members(symbols[..i]) + {symbols[i]};
        InvalidateStockData(symbols[i]);
        i := i + 1;
      }
      assert symbols[..i] == symbols;
    }

    /** The refresh loop of `invalidate_and_refresh`: each symbol with a
        fetched quote is written, and the result reports, for exactly the
        given symbols, whether the symbol was fetched and written. */
    method RefreshListed(symbols: seq<string>, quotes: map<string, StockQuote>, failing: set<string>)
      returns (results: map<string, bool>)
      requires quotes.Keys <= WebSockets.Members(symbols)
      modifies this
      ensures results.Keys == WebSockets.Members(symbols)
      ensures forall s :: s in results ==> (results[s] <==> s in quotes && s !in failing)
      ensures data == old(data) + Written(quotes, failing)
    {
      results := map[];
      var i := 0;
      while i < |symbols|
        invariant 0 <= i <= |symbols|
        invariant results.Keys == WebSockets.Members(symbols[..i])
        invariant forall s :: s in results ==> (results[s] <==> s in quotes && s !in failing)
        invariant WrittenSoFar(data, old(data), quotes, failing, WebSockets.Members(symbols[..i]))
      {
        var symbol := symbols[i];
        assert WebSockets.Members(symbols[..i + 1]) == WebSockets.Members(symbols[..i]) + {symbol};
        if symbol in quotes {
          var ok := RefreshStockData(symbol, quotes[symbol], failing);
          results := results[symbol := ok];
        } else {
          results := results[symbol := false];
        }
        i := i + 1;
      }
      assert symbols[..i] == symbols;
      assert WrittenSoFar(data, old(data), quotes, failing, quotes.Keys);
      WrittenAll(data, old(data), quotes, failing);
    }

    /** `warm_cache(quotes, ttl)`: every quote is written, each reporting
        whether its write succeeded. */
    method WarmCache(quotes: map<string, StockQuote>, failing: set<string>) returns (results: map<string, bool>)
      modifies this
      ensures results.Keys == quotes.Keys
      ensures forall s :: s in results ==> (results[s] <==> s !in failing)
      ensures data == old(data) + Written(quotes, failing)
    {
      results := map[];
      var remaining := quotes.Keys;
      ghost var done: set<string> := {};
      while remaining != {}
        invariant done == quotes.Keys - remaining
        invariant results.Keys == done
        invariant forall s :: s in results ==> (results[s] <==> s !in failing)
        invariant WrittenSoFar(data, old(data), quotes, failing, done)
        decreases remaining
      {
        var symbol :| symbol in remaining;
        var ok := RefreshStockData(symbol, quotes[symbol], failing);
        results := results[symbol := ok];
        remaining := remaining - {symbol};
        done := done + {symbol};
      }
      WrittenAll(data, old(data), quotes, failing);
    }
  }

  /** `list(s)`: the elements of a set, each once, in some order. */
  method Listed(s: set<string>) returns (r: seq<string>)
    ensures Distinct(r) && WebSockets.Members(r) == s
  {
    r := [];
    var remaining := s;
    while remaining != {}
      invariant Distinct(r)
      invariant WebSockets.Members(r) == s - remaining
      decreases remaining
    {
      var x :| x in remaining;
      r := r + [x];
      remaining := remaining - {x};
    }
  }

  /** `cache_hit_rate_percent`: the share of lookups that hit, in percent
      rounded to two places, zero before the first lookup. */
  function HitRatePercent(hits: nat, misses: nat): (r: real)
    ensures 0.0 <= r <= 100.0
    ensures hits == 0 ==> r == 0.0
    ensures misses == 0 && hits > 0 ==> r == 100.0
  {
    if hits + misses > 0 then
      var x := hits as real / (hits + misses) as real * 100.0;
      RoundPercent(x);
      Round(x, 2)
    else 0.0
  }

  /** Rounding a percentage to two places keeps it a percentage, and keeps
      its end points. */
  lemma RoundPercent(x: real)
    requires 0.0 <= x <= 100.0
    ensures 0.0 <= Round(x, 2) <= 100.0
    ensures x == 0.0 ==> Round(x, 2) == 0.0
    ensures x == 100.0 ==> Round(x, 2) == 100.0
  {
    assert Pow10(2) == 100 by {
      assert Pow10(1) == 10 * Pow10(0);
    }
    var n := RoundScaled(x * 100.0);
    assert -0.5 <= n as real <= 10000.5;
    assert 0 <= n <= 10000;
  }

  /** `broadcast_stock_update(symbol, quote.to_dict())`, seen from the
      cache side: nothing changes for a symbol without subscribers;
      otherwise each connected subscriber is sent the quote's dictionary
      once, and each subscriber that is not connected has it queued and is
      dropped from both subscription indexes. */
  method BroadcastQuote(manager: WebSockets.WebSocketManager, symbol: string, data: Dict,
                        nowIso: string, failing: set<string>)
    requires manager.Valid()
    modifies manager
    ensures manager.Valid()
    ensures manager.connectedClients == old(manager.connectedClients)
    ensures |manager.outbox| >= |old(manager.outbox)|
    ensures manager.outbox[..|old(manager.outbox)|] == old(manager.outbox)
    ensures symbol !in old(manager.symbolSubscribers) ==>
      && manager.outbox == old(manager.outbox) && manager.messageQueue == old(manager.messageQueue)
      && manager.clientSubscriptions == old(manager.clientSubscriptions)
      && manager.symbolSubscribers == old(manager.symbolSubscribers)
    ensures symbol in old(manager.symbolSubscribers) ==>
      var away := old(manager.symbolSubscribers)[symbol] - old(manager.connectedClients);
      var message := WebSockets.StockUpdate(symbol, data, nowIso);
      && Sockets.OncePerRoom(manager.outbox[|old(manager.outbox)|..],
           old(manager.symbolSubscribers)[symbol] * old(manager.connectedClients) - failing, "stock_update", message)
      && manager.messageQueue == WebSockets.EnqueueAll(old(manager.messageQueue), away, message)
      && manager.clientSubscriptions == WebSockets.Restrict(old(manager.clientSubscriptions), away)
      && manager.symbolSubscribers == WebSockets.WithoutClients(old(manager.symbolSubscribers), away)
  {
    manager.BroadcastStockUpdate(symbol, data, nowIso, failing);
  }

  /** `get_performance_stats()`. */
  datatype PerformanceStats = PerformanceStats(
    cacheHits: nat, cacheMisses: nat, cacheHitRatePercent: real,
    updatesProcessed: nat, broadcastsSent: nat,
    essentialStocksCount: nat, essentialStocks: set<string>, isRunning: bool)

  /** The name `_setup_integration` registers with the fetcher. */
  const BatchUpdateCallback: string := "_handle_batch_updates"

  class CacheIntegrationService {
    const store: CacheStore
    const fetcher: BatchFetcher.BatchDataFetcher
    /** The subscription manager, or null when there is none. */
    const manager: WebSockets.WebSocketManager?

    var essentialStocks: set<string>
    var isRunning: bool
    var cacheHits: nat
    var cacheMisses: nat
    var updatesProcessed: nat
    var broadcastsSent: nat

    ghost predicate Valid()
      reads this, fetcher
    {
      fetcher.Valid()
    }

    /** Every essential stock is on the fetcher's watch list. */
    ghost predicate Mirrored()
      reads this, fetcher
    {
      essentialStocks <= fetcher.watched.Keys
    }

    /** `__init__` with `_setup_integration`: the batch-update handler is
        registered with the fetcher. */
    constructor(store: CacheStore, fetcher: BatchFetcher.BatchDataFetcher, manager: WebSockets.WebSocketManager?)
      requires fetcher.Valid()
      modifies fetcher
      ensures Valid() && Mirrored()
      ensures this.store == store && this.fetcher == fetcher && this.manager == manager
      ensures essentialStocks == {} && !isRunning
      ensures cacheHits == 0 && cacheMisses == 0 && updatesProcessed == 0 && broadcastsSent == 0
      ensures fetcher.updateCallbacks == old(fetcher.updateCallbacks) + [BatchUpdateCallback]
      ensures fetcher.watched == old(fetcher.watched) && fetcher.watchOrder == old(fetcher.watchOrder)
    {
      this.store := store;
      this.fetcher := fetcher;
      this.manager := manager;
      essentialStocks := {};
      isRunning := false;
      cacheHits, cacheMisses, updatesProcessed, broadcastsSent := 0, 0, 0, 0;
      new;
      fetcher.AddUpdateCallback(BatchUpdateCallback);
    }

    /** `_handle_batch_updates`: every quote is written to the cache; only
        the writes that succeed are counted, and a failing write does not
        stop the others. */
    method HandleBatchUpdates(quotes: map<string, StockQuote>, failing: set<string>)
      modifies this, store
      ensures store.data == old(store.data) + Written(quotes, failing)
      ensures updatesProcessed == old(updatesProcessed) + |Written(quotes, failing)|
      ensures cacheHits == old(cacheHits) && cacheMisses == old(cacheMisses)
      ensures broadcastsSent == old(broadcastsSent)
      ensures essentialStocks == old(essentialStocks) && isRunning == old(isRunning)
    {
      var count := store.RefreshEach(quotes, failing);
      updatesProcessed := updatesProcessed + count;
    }

    /** `_handle_cache_updates`: with a subscription manager, the quote is
        broadcast to the symbol's subscribers as a stock update and
        counted; without one, nothing happens. */
    method HandleCacheUpdates(symbol: string, quote: StockQuote, nowIso: string, failing: set<string>)
      requires ValidQuote(quote)
      requires manager != null ==> manager.Valid()
      modifies this, manager
      ensures essentialStocks == old(essentialStocks) && isRunning == old(isRunning)
      ensures cacheHits == old(cacheHits) && cacheMisses == old(cacheMisses)
      ensures updatesProcessed == old(updatesProcessed)
      ensures manager == null ==> broadcastsSent == old(broadcastsSent)
      ensures manager != null ==>
        && manager.Valid()
        && broadcastsSent == old(broadcastsSent) + 1
        && |manager.outbox| >= |old(manager.outbox)|
        && manager.outbox[..|old(manager.outbox)|] == old(manager.outbox)
        && manager.connectedClients == old(manager.connectedClients)
        && (symbol !in old(manager.symbolSubscribers) ==>
              && manager.outbox == old(manager.outbox) && manager.messageQueue == old(manager.messageQueue)
              && manager.clientSubscriptions == old(manager.clientSubscriptions)
              && manager.symbolSubscribers == old(manager.symbolSubscribers))
        && (symbol in old(manager.symbolSubscribers) ==>
              var away := old(manager.symbolSubscribers)[symbol] - old(manager.connectedClients);
              var message := WebSockets.StockUpdate(symbol, ToDict(quote), nowIso);
              && Sockets.OncePerRoom(manager.outbox[|old(manager.outbox)|..],
                   old(manager.symbolSubscribers)[symbol] * old(manager.connectedClients) - failing, "stock_update", message)
              && manager.messageQueue == WebSockets.EnqueueAll(old(manager.messageQueue), away, message)
              && manager.clientSubscriptions == WebSockets.Restrict(old(manager.clientSubscriptions), away)
              && manager.symbolSubscribers == WebSockets.WithoutClients(old(manager.symbolSubscribers), away))
    {
      if manager == null {
        return;
      }
      BroadcastQuote(manager, symbol, ToDict(quote), nowIso, failing);
      broadcastsSent := broadcastsSent + 1;
    }

    /** `add_essential_stock`: the symbol joins the essential set and the
        watch list; a symbol already watched keeps its config, so its
        priority is not raised. */
    method AddEssentialStock(symbol: string, priority: BatchFetcher.Priority)
      requires Valid()
      modifies this, fetcher
      ensures Valid()
      ensures old(Mirrored()) ==> Mirrored()
      ensures essentialStocks == old(essentialStocks) + {symbol}
      ensures symbol in old(fetcher.watched) ==> fetcher.watched == old(fetcher.watched)
      ensures symbol !in old(fetcher.watched) ==>
        fetcher.watched == old(fetcher.watched)[symbol := BatchFetcher.FreshConfig(symbol, priority)]
      ensures isRunning == old(isRunning) && cacheHits == old(cacheHits) && cacheMisses == old(cacheMisses)
    {
      essentialStocks := essentialStocks + {symbol};
      var _ := fetcher.AddSymbolToWatch(symbol, priority);
    }

    /** `remove_essential_stock`: the symbol leaves both the essential set
        and the watch list, even when the fetcher was watching it for
        another reason. */
    method RemoveEssentialStock(symbol: string)
      requires Valid()
      modifies this, fetcher
      ensures Valid()
      ensures old(Mirrored()) ==> Mirrored()
      ensures essentialStocks == old(essentialStocks) - {symbol}
      ensures fetcher.watched == old(fetcher.watched) - {symbol}
      ensures isRunning == old(isRunning) && cacheHits == old(cacheHits) && cacheMisses == old(cacheMisses)
    {
      essentialStocks := essentialStocks - {symbol};
      var _ := fetcher.RemoveSymbolFromWatch(symbol);
    }

    /** `warm_cache_for_essentials`: nothing when there are no essential
        stocks or the fetch returned no quote; otherwise the fetch hands
        the quotes to `_handle_batch_updates`, which writes and counts
        them, and then every fetched quote is written to the cache again
        and the result reports each write. */
    method WarmCacheForEssentials(fetch: seq<string> -> map<string, StockQuote>, failing: set<string>)
      returns (results: map<string, bool>)
      modifies this, store
      ensures essentialStocks == old(essentialStocks) && isRunning == old(isRunning)
      ensures cacheHits == old(cacheHits) && cacheMisses == old(cacheMisses) && broadcastsSent == old(broadcastsSent)
      ensures essentialStocks == {} ==>
        results == map[] && store.data == old(store.data) && updatesProcessed == old(updatesProcessed)
      ensures essentialStocks != {} ==>
        exists order: seq<string> :: Distinct(order) && WebSockets.Members(order) == essentialStocks
          && var fetched := fetch(order);
          && updatesProcessed == old(updatesProcessed) + |Written(fetched, failing)|
          && (fetched == map[] ==> results == map[] && store.data == old(store.data))
          && (fetched != map[] ==>
                && results.Keys == fetched.Keys
                && (forall s :: s in results ==> (results[s] <==> s !in failing))
                && store.data == old(store.data) + Written(fetched, failing))
    {
      if essentialStocks == {} {
        return map[];
      }
      var order := Listed(essentialStocks);
      var fetched := fetch(order);
      if fetched == map[] {
        results := map[];
        assert Written(fetched, failing) == map[];
      } else {
        HandleBatchUpdates(fetched, failing);
        results := store.WarmCache(fetched, failing);
        WrittenTwice(old(store.data), fetched, failing);
      }
      assert Distinct(order) && WebSockets.Members(order) == essentialStocks;
    }

    /** `get_stock_data`: a cached quote is a hit and is returned without
        fetching; otherwise it is a miss and, when `fetchIfMissing` holds,
        the symbol is fetched on its own. A non-empty fetch first hands its
        quotes to `_handle_batch_updates`, which writes and counts them;
        then a fetched quote is written to the cache again and returned
        (whether or not the write succeeded). */
    method GetStockData(symbol: string, fetchIfMissing: bool,
                        fetch: seq<string> -> map<string, StockQuote>, failing: set<string>)
      returns (quote: Option<StockQuote>)
      modifies this, store
      ensures cacheHits + cacheMisses == old(cacheHits) + old(cacheMisses) + 1
      ensures symbol in old(store.data) ==>
        && quote == Some(old(store.data)[symbol])
        && cacheHits == old(cacheHits) + 1
        && store.data == old(store.data)
      ensures symbol !in old(store.data) && !fetchIfMissing ==>
        && quote == None
        && cacheMisses == old(cacheMisses) + 1
        && store.data == old(store.data)
      ensures symbol !in old(store.data) && fetchIfMissing ==>
        var fetched := fetch([symbol]);
        && cacheMisses == old(cacheMisses) + 1
        && quote == (if symbol in fetched then Some(fetched[symbol]) else None)
        && store.data == old(store.data) + Written(fetched, failing)
        && updatesProcessed == old(updatesProcessed) + |Written(fetched, failing)|
      ensures !(symbol !in old(store.data) && fetchIfMissing) ==> updatesProcessed == old(updatesProcessed)
      ensures broadcastsSent == old(broadcastsSent)
      ensures essentialStocks == old(essentialStocks) && isRunning == old(isRunning)
    {
      if symbol in store.data {
        cacheHits := cacheHits + 1;
        return Some(store.data[symbol]);
      }
      cacheMisses := cacheMisses + 1;
      quote := None;
      if fetchIfMissing {
        var fetched := fetch([symbol]);
        if fetched == map[] {
          assert Written(fetched, failing) == map[];
        } else {
          HandleBatchUpdates(fetched, failing);
        }
        if symbol in fetched {
          var _ := store.RefreshStockData(symbol, fetched[symbol], failing);
          quote := Some(fetched[symbol]);
        }
        assert store.data == old(store.data) + Written(fetched, failing);
      }
    }

    /** `invalidate_and_refresh`: every symbol is invalidated before the
        fetch, which returns quotes only for requested symbols; a non-empty
        fetch hands its quotes to `_handle_batch_updates`, which writes and
        counts them. The result has exactly the given symbols, true where
        the symbol was fetched and written, and afterwards a given symbol
        is cached exactly when its result is true. Other entries stay. */
    method InvalidateAndRefresh(symbols: seq<string>, fetch: seq<string> -> map<string, StockQuote>, failing: set<string>)
      returns (results: map<string, bool>)
      requires fetch(symbols).Keys <= WebSockets.Members(symbols)
      modifies this, store
      ensures updatesProcessed == old(updatesProcessed) + |Written(fetch(symbols), failing)|
      ensures essentialStocks == old(essentialStocks) && isRunning == old(isRunning)
      ensures cacheHits == old(cacheHits) && cacheMisses == old(cacheMisses) && broadcastsSent == old(broadcastsSent)
      ensures results.Keys == WebSockets.Members(symbols)
      ensures forall s :: s in results ==> (results[s] <==> s in fetch(symbols) && s !in failing)
      ensures forall s :: s in results ==> (s in store.data <==> results[s])
      ensures forall s :: s in results && results[s] ==> store.data[s] == fetch(symbols)[s]
      ensures forall s :: s !in results ==> (s in store.data <==> s in old(store.data))
      ensures forall s :: s !in results && s in store.data ==> store.data[s] == old(store.data)[s]
    {
      store.InvalidateEach(symbols);
      var fetched := fetch(symbols);
      if fetched == map[] {
        assert Written(fetched, failing) == map[];
      } else {
        HandleBatchUpdates(fetched, failing);
      }
      results := store.RefreshListed(symbols, fetched, failing);
      WrittenTwice(old(store.data) - WebSockets.Members(symbols), fetched, failing);
    }

    /** `start_periodic_cache_warming`: the first call sets the run flag
        and starts warming; a call while running changes nothing. */
    method StartPeriodicCacheWarming() returns (started: bool)
      modifies this
      ensures started <==> !old(isRunning)
      ensures isRunning
      ensures essentialStocks == old(essentialStocks) && cacheHits == old(cacheHits) && cacheMisses == old(cacheMisses)
      ensures updatesProcessed == old(updatesProcessed) && broadcastsSent == old(broadcastsSent)
    {
      if isRunning {
        return false;
      }
      isRunning := true;
      started := true;
    }

    /** `stop`: clears the run flag. */
    method Stop()
      modifies this
      ensures !isRunning
      ensures essentialStocks == old(essentialStocks) && cacheHits == old(cacheHits) && cacheMisses == old(cacheMisses)
      ensures updatesProcessed == old(updatesProcessed) && broadcastsSent == old(broadcastsSent)
    {
      isRunning := false;
    }

    /** `get_performance_stats`: the counters, a hit rate between 0 and 100
        percent, and the essential stocks. */
    method GetPerformanceStats() returns (s: PerformanceStats)
      ensures s.cacheHits == cacheHits && s.cacheMisses == cacheMisses
      ensures s.cacheHitRatePercent == HitRatePercent(cacheHits, cacheMisses)
      ensures 0.0 <= s.cacheHitRatePercent <= 100.0
      ensures cacheHits == 0 ==> s.cacheHitRatePercent == 0.0
      ensures cacheMisses == 0 && cacheHits > 0 ==> s.cacheHitRatePercent == 100.0
      ensures s.updatesProcessed == updatesProcessed && s.broadcastsSent == broadcastsSent
      ensures s.essentialStocksCount == |essentialStocks| && s.essentialStocks == essentialStocks
      ensures s.isRunning == isRunning
    {
      s := PerformanceStats(cacheHits, cacheMisses, HitRatePercent(cacheHits, cacheMisses),
        updatesProcessed, broadcastsSent, |essentialStocks|, essentialStocks, isRunning);
    }
  }
}
