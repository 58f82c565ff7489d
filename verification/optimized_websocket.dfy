/** The bandwidth-optimised quote feed: per-client capability negotiation,
    a choice between delta and full updates, per-client pending batches
    flushed at a size limit, and optional compression of single updates
    and of whole batches. The JSON text size of a message and the byte
    sizes measured by the compressor are supplied as a `Sizes` oracle;
    what the socket is asked to send is recorded in an outbox. */
module OptimizedSockets {
  import opened Values
  import opened Sockets
  import opened Codec
  import WebSockets

  // ---------------------------------------------------------------------
  // Capabilities and configuration
  // ---------------------------------------------------------------------

  /** What a client announced, each field as sent or its default. */
  datatype Capabilities = Capabilities(
    supportsCompression: Value,
    supportsDeltaUpdates: Value,
    supportsBatchUpdates: Value,
    maxMessageSize: Value,
    preferredCompression: Value)

  const DefaultMaxMessageSize: int := 64 * 1024

  /** The capabilities read from a negotiation message, with defaults for
      absent fields. */
  function Negotiate(data: Dict): (c: Capabilities)
  {
    Capabilities(
      GetOr(data, "supports_compression", VBool(false)),
      GetOr(data, "supports_delta_updates", VBool(false)),
      GetOr(data, "supports_batch_updates", VBool(false)),
      GetOr(data, "max_message_size", VInt(DefaultMaxMessageSize)),
      GetOr(data, "preferred_compression", VStr("msgpack")))
  }

  /** Each announced field is kept as sent; each absent one takes its
      default: no compression, no delta, no batching, 64 KiB and
      'msgpack'. */
  lemma NegotiateFields(data: Dict)
    ensures var c := Negotiate(data);
      && ("supports_compression" in data.vals ==> c.supportsCompression == data.vals["supports_compression"])
      && ("supports_compression" !in data.vals ==> c.supportsCompression == VBool(false))
      && ("supports_delta_updates" in data.vals ==> c.supportsDeltaUpdates == data.vals["supports_delta_updates"])
      && ("supports_delta_updates" !in data.vals ==> c.supportsDeltaUpdates == VBool(false))
      && ("supports_batch_updates" in data.vals ==> c.supportsBatchUpdates == data.vals["supports_batch_updates"])
      && ("supports_batch_updates" !in data.vals ==> c.supportsBatchUpdates == VBool(false))
      && ("max_message_size" in data.vals ==> c.maxMessageSize == data.vals["max_message_size"])
      && ("max_message_size" !in data.vals ==> c.maxMessageSize == VInt(65536))
      && ("preferred_compression" in data.vals ==> c.preferredCompression == data.vals["preferred_compression"])
      && ("preferred_compression" !in data.vals ==> c.preferredCompression == VStr("msgpack"))
  {
  }

  /** An empty negotiation message enables nothing. */
  lemma EmptyNegotiationEnablesNothing()
    ensures var c := Negotiate(Empty);
      !Truthy(c.supportsCompression) && !Truthy(c.supportsDeltaUpdates) && !Truthy(c.supportsBatchUpdates)
  {
  }

  /** `client_capabilities.get(client, {}).get('supports_...', False)`: a
      client that never negotiated supports nothing. */
  predicate SupportsCompression(caps: map<string, Capabilities>, client: string)
  {
    client in caps && Truthy(caps[client].supportsCompression)
  }

  predicate SupportsDelta(caps: map<string, Capabilities>, client: string)
  {
    client in caps && Truthy(caps[client].supportsDeltaUpdates)
  }

  predicate SupportsBatch(caps: map<string, Capabilities>, client: string)
  {
    client in caps && Truthy(caps[client].supportsBatchUpdates)
  }

  /** `batch_config`. */
  datatype BatchConfig = BatchConfig(
    maxBatchSize: int, batchTimeoutMs: int, enableCompression: bool, compressionThreshold: int)

  const DefaultBatchConfig := BatchConfig(10, 100, true, 500)

  /** The room of an emit made without `to=`: every connected client. */
  const Everyone: string := "*"

  /** The entries of an `update_batch_config` call; an absent entry keeps
      its value. */
  datatype ConfigChange = ConfigChange(
    maxBatchSize: Option<int>, batchTimeoutMs: Option<int>,
    enableCompression: Option<bool>, compressionThreshold: Option<int>)

  function Override<T>(old_: T, change: Option<T>): T
  {
    if change.Some? then change.value else old_
  }

  // ---------------------------------------------------------------------
  // Messages
  // ---------------------------------------------------------------------

  /** The message dicts the service sends. */
  datatype Payload =
    | ServerCapabilities(maxBatchSize: int)
    | StatsReport(stats: CompressionStats)
    /** `{'type': 'stock_update_optimized', 'data', 'timestamp', 'compressed': False}` */
    | SingleUpdate(data: Dict, timestamp: string)
    /** `{'type': 'stock_update_compressed', 'data': <base64>, 'timestamp', 'compressed': True,
        'compression_method': 'msgpack'}`, for the dict `source`; the bytes
        are `Wire` of the message. */
    | CompressedSingle(source: Dict, timestamp: string)
    /** `{'type': 'batch_update', 'data', 'count', 'timestamp', 'compressed': False}` */
    | BatchUpdate(updates: seq<Dict>, count: nat, timestamp: string)
    /** `{'type': 'batch_update_compressed', 'data': <base64>, 'count', 'timestamp', 'compressed': True,
        'compression_method': 'msgpack_gzip'}`, for the updates `batch`; the
        bytes are `Wire` of the message. */
    | CompressedBatch(batch: seq<Dict>, count: nat, timestamp: string)

  /** The compressed bytes a compressed message carries: what
      `compress_stock_data` returns for its dict, or what
      `compress_batch_updates` returns for its batch. */
  function Wire(p: Payload): Option<Blob>
    requires p.CompressedSingle? ==> WellFormed(p.source)
  {
    match p
    case CompressedSingle(source, _) => Some(Compressed(source, false))
    case CompressedBatch(batch, _, timestamp) => Some(Compressed(BatchEnvelope(batch, timestamp), true))
    case _ => None
  }

  type AtLeastTwo = n: nat | n >= 2 witness 2
  type Positive = n: nat | n >= 1 witness 1

  /** Sizes the service measures: the JSON text of the single-update
      message carrying a dict (None when it cannot be serialised), and
      the JSON and packed byte lengths the compressor records for a dict. */
  datatype Sizes = Sizes(messageSize: Dict -> Option<nat>, jsonSize: Dict -> AtLeastTwo, packedSize: Dict -> Positive)

  /** `_send_single_update`'s decision: compress only when the client
      supports it, compression is enabled and the serialised message is
      over the threshold. */
  predicate ShouldCompress(useCompression: bool, config: BatchConfig, messageSize: Option<nat>)
  {
    useCompression && config.enableCompression && messageSize.Some? && messageSize.value > config.compressionThreshold
  }

  /** The message `_send_single_update` sends for `data`. */
  function SinglePayload(data: Dict, compress: bool, nowIso: string): (p: Payload)
    requires WellFormed(data)
    ensures p.CompressedSingle? <==> compress
    ensures p.SingleUpdate? ==> p.data == data
    ensures p.CompressedSingle? ==> p.source == data
  {
    if compress then CompressedSingle(data, nowIso) else SingleUpdate(data, nowIso)
  }

  /** The message `_flush_batch` sends for a batch. */
  function BatchPayload(batch: seq<Dict>, compress: bool, nowIso: string): (p: Payload)
    ensures (p.BatchUpdate? || p.CompressedBatch?) && p.count == |batch|
    ensures p.CompressedBatch? <==> compress
    ensures p.BatchUpdate? ==> p.updates == batch
    ensures p.CompressedBatch? ==> p.batch == batch
  {
    if compress then CompressedBatch(batch, |batch|, nowIso)
    else BatchUpdate(batch, |batch|, nowIso)
  }

  /** `pending_batches.get(client, [])`. */
  function PendingOf(pending: map<string, seq<Dict>>, client: string): seq<Dict>
  {
    if client in pending then pending[client] else []
  }

  /** Every pending batch is shorter than the flush size, or empty. */
  ghost predicate BatchesBelow(pending: map<string, seq<Dict>>, maxBatchSize: int)
  {
    forall c :: c in pending ==> |pending[c]| < maxBatchSize || pending[c] == []
  }

  // ---------------------------------------------------------------------
  // Grouping of a broadcast
  // ---------------------------------------------------------------------

  /** An element of `broadcast_optimized_updates`' list:
      `{'symbol': ..., 'data': ...}`. */
  datatype StockUpdate = StockUpdate(symbol: string, data: Dict)

  /** `symbol_subscribers.get(symbol, set())`. */
  function SubscribersOf(subscribers: WebSockets.Index, symbol: string): set<string>
  {
    if symbol in subscribers then subscribers[symbol] else {}
  }

  /** `client` follows the symbol of `u`. */
  predicate Follows(subscribers: WebSockets.Index, client: string, u: StockUpdate)
  {
    u.symbol in subscribers && client in subscribers[u.symbol]
  }

  /** The updates of `updates` whose symbol `client` follows, in input
      order. */
  function UpdatesFor(updates: seq<StockUpdate>, subscribers: WebSockets.Index, client: string)
    : (r: seq<StockUpdate>)
    ensures |r| <= |updates|
    ensures forall u :: u in r ==> u in updates && Follows(subscribers, client, u)
    ensures (forall i :: 0 <= i < |updates| ==> WellFormed(updates[i].data)) ==>
      forall i :: 0 <= i < |r| ==> WellFormed(r[i].data)
  {
    if |updates| == 0 then []
    else
      var last := updates[|updates| - 1];
      UpdatesFor(updates[..|updates| - 1], subscribers, client)
        + (if Follows(subscribers, client, last) then [last] else [])
  }

  /** No update the client follows is left out. */
  lemma {:induction false} UpdatesForComplete(updates: seq<StockUpdate>, subscribers: WebSockets.Index, client: string)
    ensures forall i :: 0 <= i < |updates| && Follows(subscribers, client, updates[i]) ==>
      updates[i] in UpdatesFor(updates, subscribers, client)
  {
    if |updates| > 0 {
      var init := updates[..|updates| - 1];
      UpdatesForComplete(init, subscribers, client);
      forall i | 0 <= i < |updates| && Follows(subscribers, client, updates[i])
        ensures updates[i] in UpdatesFor(updates, subscribers, client)
      {
        if i < |updates| - 1 {
          assert updates[i] == init[i];
        }
      }
    }
  }

  /** The clients following the symbol of some update. */
  function Recipients(updates: seq<StockUpdate>, subscribers: WebSockets.Index): (r: set<string>)
  {
    if |updates| == 0 then {}
    else
      var last := updates[|updates| - 1];
      Recipients(updates[..|updates| - 1], subscribers)
        + (if last.symbol in subscribers then subscribers[last.symbol] else {})
  }

  /** A client is a recipient exactly when some update is for it: the
      grouping holds no empty list. */
  lemma {:induction false} RecipientsNonEmpty(updates: seq<StockUpdate>, subscribers: WebSockets.Index, client: string)
    ensures client in Recipients(updates, subscribers) <==> UpdatesFor(updates, subscribers, client) != []
  {
    if |updates| > 0 {
      RecipientsNonEmpty(updates[..|updates| - 1], subscribers, client);
    }
  }

  /** `broadcast_optimized_updates`' grouping loop: each recipient gets the
      updates it follows, in input order; `order` is the order in which
      recipients were first met. */
  method GroupByClient(updates: seq<StockUpdate>, subscribers: WebSockets.Index)
    returns (groups: map<string, seq<StockUpdate>>, order: seq<string>)
    ensures forall c :: c in groups <==> c in Recipients(updates, subscribers)
    ensures forall c :: c in groups ==> groups[c] == UpdatesFor(updates, subscribers, c)
    ensures Distinct(order) && forall c :: c in order <==> c in groups
  {
    groups, order := map[], [];
    var i := 0;
    ghost var before: seq<StockUpdate> := [];
    while i < |updates|
      invariant 0 <= i <= |updates| && before == updates[..i]
      invariant forall c :: c in groups <==> c in Recipients(before, subscribers)
      invariant forall c :: c in groups ==> groups[c] == UpdatesFor(before, subscribers, c)
      invariant Distinct(order) && forall c :: c in order <==> c in groups
    {
      groups, order := GroupOne(groups, order, before, updates[i], subscribers);
      before := before + [updates[i]];
      i := i + 1;
      assert before == updates[..i];
    }
    assert before == updates;
  }

  /** One update of the grouping loop: it is appended to the list of every
      subscriber of its symbol. */
  method GroupOne(groups: map<string, seq<StockUpdate>>, order: seq<string>,
                  ghost before: seq<StockUpdate>, u: StockUpdate, subscribers: WebSockets.Index)
    returns (groups': map<string, seq<StockUpdate>>, order': seq<string>)
    requires forall c :: c in groups <==> c in Recipients(before, subscribers)
    requires forall c :: c in groups ==> groups[c] == UpdatesFor(before, subscribers, c)
    requires Distinct(order) && forall c :: c in order <==> c in groups
    ensures forall c :: c in groups' <==> c in Recipients(before + [u], subscribers)
    ensures forall c :: c in groups' ==> groups'[c] == UpdatesFor(before + [u], subscribers, c)
    ensures Distinct(order') && forall c :: c in order' <==> c in groups'
  {
    assert (before + [u])[..|before|] == before;
    groups', order' := groups, order;
    if u.symbol in subscribers {
      var clients := subscribers[u.symbol];
      var remaining := clients;
      ghost var done: set<string> := {};
      while remaining != {}
        invariant done == clients - remaining
        invariant forall c :: c in groups' <==> c in groups || c in done
        invariant forall c :: c in groups' ==> groups'[c] == PendingGroup(groups, c) + (if c in done then [u] else [])
        invariant Distinct(order') && forall c :: c in order' <==> c in groups'
        decreases remaining
      {
        var c :| c in remaining;
        if c !in groups' {
          groups' := groups'[c := []];
          order' := order' + [c];
        }
        groups' := groups'[c := groups'[c] + [u]];
        remaining := remaining - {c};
        done := done + {c};
      }
      assert done == clients;
    }
    forall c | c in groups'
      ensures groups'[c] == UpdatesFor(before + [u], subscribers, c)
    {
      RecipientsNonEmpty(before, subscribers, c);
    }
  }

  /** `client_updates.get(c, [])` before the update. */
  function PendingGroup(groups: map<string, seq<StockUpdate>>, client: string): seq<StockUpdate>
  {
    if client in groups then groups[client] else []
  }

  /** The baselines after encoding `updates` in order: each symbol's last
      data. */
  function Baselines(cache: map<string, Dict>, updates: seq<StockUpdate>): map<string, Dict>
  {
    if |updates| == 0 then cache
    else
      var last := updates[|updates| - 1];
      Baselines(cache, updates[..|updates| - 1])[last.symbol := last.data]
  }

  /** The baseline cache gains every processed symbol, and keeps the
      last data sent for it. */
  lemma {:induction false} BaselinesKeys(cache: map<string, Dict>, updates: seq<StockUpdate>)
    ensures Baselines(cache, updates).Keys == cache.Keys + set u | u in updates :: u.symbol
    ensures |updates| > 0 ==> Baselines(cache, updates)[updates[|updates| - 1].symbol] == updates[|updates| - 1].data
    decreases |updates|
  {
    if |updates| > 0 {
      var n := |updates| - 1;
      BaselinesKeys(cache, updates[..n]);
      assert updates == updates[..n] + [updates[n]];
    }
  }

  /** `updates` with only its first element when a failing send aborts the
      rest. */
  function Processed(updates: seq<StockUpdate>, all: bool): (r: seq<StockUpdate>)
    ensures r <= updates
  {
    if all || |updates| == 0 then updates else updates[..1]
  }

  /** Every emission of `s` goes to one of `rooms`. */
  predicate AllIn(s: seq<Emission<Payload>>, rooms: set<string>)
  {
    |s| == 0 || (s[|s| - 1].room in rooms && AllIn(s[..|s| - 1], rooms))
  }

  lemma {:induction false} AllInConcat(s: seq<Emission<Payload>>, t: seq<Emission<Payload>>, rooms: set<string>)
    ensures AllIn(s + t, rooms) <==> AllIn(s, rooms) && AllIn(t, rooms)
    decreases |t|
  {
    if |t| == 0 {
      assert s + t == s;
    } else {
      var n := |t| - 1;
      AllInConcat(s, t[..n], rooms);
      assert (s + t)[..|s + t| - 1] == s + t[..n];
    }
  }

  lemma {:induction false} AllInMore(s: seq<Emission<Payload>>, rooms: set<string>, more: set<string>)
    requires AllIn(s, rooms) && rooms <= more
    ensures AllIn(s, more)
    decreases |s|
  {
    if |s| > 0 {
      AllInMore(s[..|s| - 1], rooms, more);
    }
  }

  /** `later` keeps everything in `earlier` and adds only emissions to
      `rooms`. */
  ghost predicate Extends(earlier: seq<Emission<Payload>>, later: seq<Emission<Payload>>, rooms: set<string>)
  {
    && |later| >= |earlier|
    && later[..|earlier|] == earlier
    && AllIn(later[|earlier|..], rooms)
  }

  lemma ExtendsMore(a: seq<Emission<Payload>>, b: seq<Emission<Payload>>, rooms: set<string>, more: set<string>)
    requires Extends(a, b, rooms) && rooms <= more
    ensures Extends(a, b, more)
  {
    AllInMore(b[|a|..], rooms, more);
  }

  lemma ExtendsTrans(a: seq<Emission<Payload>>, b: seq<Emission<Payload>>, c: seq<Emission<Payload>>,
                     rooms: set<string>, more: set<string>)
    requires Extends(a, b, rooms) && Extends(b, c, more) && more <= rooms
    ensures Extends(a, c, rooms)
  {
    assert c[..|a|] == c[..|b|][..|a|];
    assert c[|a|..] == b[|a|..] + c[|b|..];
    AllInMore(c[|b|..], more, rooms);
    AllInConcat(b[|a|..], c[|b|..], rooms);
  }

  // ---------------------------------------------------------------------
  // What a client is sent
  // ---------------------------------------------------------------------

  /** The update `_send_update_to_client` builds against the baseline
      `prev`: a delta when `delta`, the full data otherwise. */
  function UpdateFrom(prev: Dict, symbol: string, data: Dict, delta: bool, nowIso: string): (u: Update)
    requires WellFormed(data)
    ensures u.symbol == symbol
    ensures delta ==> u.Delta? || u.Heartbeat?
    ensures !delta ==> u.Full? && u.data == data
  {
    if delta then DeltaUpdate(prev, symbol, data, nowIso) else Full(symbol, TimestampOr(data, nowIso), data)
  }

  /** The dict of the update for `symbol` built against the baseline in
      `cache`. */
  function StockDict(cache: map<string, Dict>, symbol: string, data: Dict, delta: bool, nowIso: string): (d: Dict)
    requires WellFormed(data)
    ensures WellFormed(d) && Get(d, "symbol") == VStr(symbol)
  {
    UpdateDict(UpdateFrom(Baseline(cache, symbol), symbol, data, delta, nowIso))
  }

  /** The compressor's counters after `_send_single_update` sent `d`:
      `compress_stock_data` runs exactly when `ShouldCompress` holds. */
  function SingleCounts(c: Counters, d: Dict, useCompression: bool, config: BatchConfig, sizes: Sizes): (r: Counters)
    requires WellFormed(d)
    ensures r.deltaUpdates == c.deltaUpdates && r.fullUpdates == c.fullUpdates
    ensures r != c ==> ShouldCompress(useCompression, config, sizes.messageSize(d))
    ensures r.totalCompressions == c.totalCompressions + 1 <==>
      ShouldCompress(useCompression, config, sizes.messageSize(d)) && Compressed(d, false).Packed?
  {
    if ShouldCompress(useCompression, config, sizes.messageSize(d))
    then Packing(c, Compressed(d, false), sizes.jsonSize(d), sizes.packedSize(d))
    else c
  }

  /** The compressor's counters after `_flush_batch` of `batch`: the batch
      envelope is compressed exactly when the batch is non-empty and
      `BatchCompress` holds, whether or not the send then fails. */
  function FlushCounts(c: Counters, batch: seq<Dict>, caps: map<string, Capabilities>, config: BatchConfig,
                       client: string, nowIso: string, sizes: Sizes): (r: Counters)
    ensures r.deltaUpdates == c.deltaUpdates && r.fullUpdates == c.fullUpdates
    ensures r != c ==> batch != [] && BatchCompress(caps, config, client)
    ensures r.totalCompressions == c.totalCompressions + 1 <==>
      batch != [] && BatchCompress(caps, config, client) && Compressed(BatchEnvelope(batch, nowIso), true).Packed?
  {
    if batch != [] && BatchCompress(caps, config, client) then
      var envelope := BatchEnvelope(batch, nowIso);
      Packing(c, Compressed(envelope, true), sizes.jsonSize(envelope), sizes.packedSize(envelope))
    else c
  }

  /** The compressor's counters after serving `client` the dict `d` with
      `batch` pending: a batching client compresses only when `d` brings
      its batch to the flush size, any other client as `_send_single_update`
      does. */
  function ServedCounts(c: Counters, batch: seq<Dict>, caps: map<string, Capabilities>, config: BatchConfig,
                        client: string, d: Dict, sizes: Sizes, nowIso: string): (r: Counters)
    requires WellFormed(d)
    ensures r.deltaUpdates == c.deltaUpdates && r.fullUpdates == c.fullUpdates
    ensures r.totalCompressions <= c.totalCompressions + 1
    ensures SupportsBatch(caps, client) && |batch + [d]| < config.maxBatchSize ==> r == c
  {
    if SupportsBatch(caps, client) then
      if |batch + [d]| >= config.maxBatchSize then FlushCounts(c, batch + [d], caps, config, client, nowIso, sizes)
      else c
    else SingleCounts(c, d, SupportsCompression(caps, client), config, sizes)
  }

  /** Whether a batch for `client` is compressed. */
  predicate BatchCompress(caps: map<string, Capabilities>, config: BatchConfig, client: string)
  {
    SupportsCompression(caps, client) && config.enableCompression
  }

  /** What serving `client` the dict `d` sends it, `batch` being its
      pending batch: a batching client's batch is sent once `d` brings it
      to the flush size; any other client is sent `d` on its own,
      compressed exactly when `ShouldCompress` holds. A failing client is
      sent nothing. */
  function ServedMessages(batch: seq<Dict>, caps: map<string, Capabilities>, config: BatchConfig, client: string,
                          d: Dict, failing: set<string>, sizes: Sizes, nowIso: string): (ms: seq<Emission<Payload>>)
    requires WellFormed(d)
    ensures |ms| <= 1 && (client in failing ==> ms == [])
    ensures AllIn(ms, {client})
  {
    if client in failing then []
    else if SupportsBatch(caps, client) then
      if |batch + [d]| >= config.maxBatchSize
      then [Emission("batch_update", client, BatchPayload(batch + [d], BatchCompress(caps, config, client), nowIso))]
      else []
    else
      [Emission("optimized_update", client,
        SinglePayload(d, ShouldCompress(SupportsCompression(caps, client), config, sizes.messageSize(d)), nowIso))]
  }

  /** What `_flush_batch` sends `client` whose pending batch is `batch`:
      nothing for an empty batch or a failing client, otherwise one message
      carrying the batch. */
  function FlushMessages(batch: seq<Dict>, caps: map<string, Capabilities>, config: BatchConfig, client: string,
                         failing: set<string>, nowIso: string): (ms: seq<Emission<Payload>>)
    ensures |ms| <= 1 && (ms != [] <==> batch != [] && client !in failing)
    ensures AllIn(ms, {client})
  {
    if batch == [] || client in failing then []
    else [Emission("batch_update", client, BatchPayload(batch, BatchCompress(caps, config, client), nowIso))]
  }

  /** The client's pending batch after being served `d`: grown by `d`,
      or emptied when that reached the flush size; untouched for a client
      that does not batch. */
  function ServedBatch(batch: seq<Dict>, caps: map<string, Capabilities>, config: BatchConfig, client: string,
                       d: Dict): (b: seq<Dict>)
    ensures SupportsBatch(caps, client) ==> b == [] || (b == batch + [d] && |b| < config.maxBatchSize)
    ensures !SupportsBatch(caps, client) ==> b == batch
  {
    if !SupportsBatch(caps, client) then batch
    else if |batch + [d]| >= config.maxBatchSize then []
    else batch + [d]
  }

  /** Serving `client` the dict `d`, with `before` pending, left `msgs`
      in its room and `batch` pending. */
  predicate ServedOnce(msgs: seq<Emission<Payload>>, batch: seq<Dict>, before: seq<Dict>, caps: map<string, Capabilities>,
                       config: BatchConfig, client: string, d: Dict, failing: set<string>, sizes: Sizes, nowIso: string)
    requires WellFormed(d)
  {
    msgs == ServedMessages(before, caps, config, client, d, failing, sizes, nowIso)
    && batch == ServedBatch(before, caps, config, client, d)
  }

  /** The dict of the `i`-th of `updates`, built against the baselines
      the stocks before it left behind. */
  function BulkDict(cache: map<string, Dict>, updates: seq<StockUpdate>, i: nat, delta: bool, nowIso: string): (d: Dict)
    requires i < |updates| && WellFormed(updates[i].data)
    ensures WellFormed(d)
  {
    StockDict(Baselines(cache, updates[..i]), updates[i].symbol, updates[i].data, delta, nowIso)
  }

  /** The update dicts `_send_bulk_updates_to_client` builds for
      `updates`, in order, each against the baselines the earlier ones
      left behind. */
  function BulkDicts(cache: map<string, Dict>, updates: seq<StockUpdate>, delta: bool, nowIso: string): (ds: seq<Dict>)
    requires forall i :: 0 <= i < |updates| ==> WellFormed(updates[i].data)
    ensures |ds| == |updates|
    ensures forall i :: 0 <= i < |ds| ==> WellFormed(ds[i])
  {
    seq(|updates|, i requires 0 <= i < |updates| => BulkDict(cache, updates, i, delta, nowIso))
  }

  /** The messages `_send_single_update` sends `client` for each of `ds`;
      none when its sends fail. */
  function SingleMessages(caps: map<string, Capabilities>, config: BatchConfig, client: string, ds: seq<Dict>,
                          failing: set<string>, sizes: Sizes, nowIso: string): (ms: seq<Emission<Payload>>)
    requires forall i :: 0 <= i < |ds| ==> WellFormed(ds[i])
    ensures client in failing ==> ms == []
    ensures client !in failing ==> |ms| == |ds|
    ensures AllIn(ms, {client})
  {
    if client in failing || |ds| == 0 then []
    else
      var n := |ds| - 1;
      SingleMessages(caps, config, client, ds[..n], failing, sizes, nowIso)
        + [Emission("optimized_update", client,
             SinglePayload(ds[n], ShouldCompress(SupportsCompression(caps, client), config, sizes.messageSize(ds[n])), nowIso))]
  }

  /** The `i`-th message carries the `i`-th dict, compressed exactly when
      the client supports compression and that dict's message is over the
      threshold. */
  lemma {:induction false} SingleMessagesAt(caps: map<string, Capabilities>, config: BatchConfig, client: string,
                                            ds: seq<Dict>, failing: set<string>, sizes: Sizes, nowIso: string, i: nat)
    requires forall j :: 0 <= j < |ds| ==> WellFormed(ds[j])
    requires client !in failing && i < |ds|
    ensures SingleMessages(caps, config, client, ds, failing, sizes, nowIso)[i] ==
      Emission("optimized_update", client,
               SinglePayload(ds[i], ShouldCompress(SupportsCompression(caps, client), config, sizes.messageSize(ds[i])), nowIso))
    decreases |ds|
  {
    var n := |ds| - 1;
    if i < n {
      SingleMessagesAt(caps, config, client, ds[..n], failing, sizes, nowIso, i);
    }
  }

  /** Sending one more dict on its own adds what serving it sends. */
  lemma SingleMessagesSnoc(caps: map<string, Capabilities>, config: BatchConfig, client: string, ds: seq<Dict>,
                           d: Dict, batch: seq<Dict>, failing: set<string>, sizes: Sizes, nowIso: string)
    requires forall i :: 0 <= i < |ds| ==> WellFormed(ds[i])
    requires WellFormed(d) && !SupportsBatch(caps, client)
    ensures forall i :: 0 <= i < |ds + [d]| ==> WellFormed((ds + [d])[i])
    ensures SingleMessages(caps, config, client, ds + [d], failing, sizes, nowIso) ==
      SingleMessages(caps, config, client, ds, failing, sizes, nowIso)
        + ServedMessages(batch, caps, config, client, d, failing, sizes, nowIso)
  {
    assert (ds + [d])[..|ds|] == ds;
  }

  /** Feeding `ds` one at a time into a batch that starts as `batch`, the
      batch being sent and emptied whenever it reaches `maxBatchSize`: the
      batches sent, in order, and what is left pending. */
  function Chunk(batch: seq<Dict>, ds: seq<Dict>, maxBatchSize: int): (seq<seq<Dict>>, seq<Dict>)
  {
    if |ds| == 0 then ([], batch)
    else
      var n := |ds| - 1;
      var (sent, rest) := Chunk(batch, ds[..n], maxBatchSize);
      var grown := rest + [ds[n]];
      if |grown| >= maxBatchSize then (sent + [grown], []) else (sent, grown)
  }

  function Flatten(batches: seq<seq<Dict>>): seq<Dict>
  {
    if |batches| == 0 then [] else Flatten(batches[..|batches| - 1]) + batches[|batches| - 1]
  }

  /** Batching loses and reorders nothing: the batches sent followed by
      what is left are the starting batch followed by the new dicts. Every
      batch sent has reached the flush size, and once something was added
      what is left is below it (or empty). */
  lemma {:induction false} ChunkKeepsAll(batch: seq<Dict>, ds: seq<Dict>, maxBatchSize: int)
    ensures Flatten(Chunk(batch, ds, maxBatchSize).0) + Chunk(batch, ds, maxBatchSize).1 == batch + ds
    ensures forall i :: 0 <= i < |Chunk(batch, ds, maxBatchSize).0| ==>
      |Chunk(batch, ds, maxBatchSize).0[i]| >= maxBatchSize && Chunk(batch, ds, maxBatchSize).0[i] != []
    ensures |ds| > 0 ==> |Chunk(batch, ds, maxBatchSize).1| < maxBatchSize || Chunk(batch, ds, maxBatchSize).1 == []
    decreases |ds|
  {
    if |ds| > 0 {
      var n := |ds| - 1;
      ChunkKeepsAll(batch, ds[..n], maxBatchSize);
      var (sent, rest) := Chunk(batch, ds[..n], maxBatchSize);
      var grown := rest + [ds[n]];
      assert ds == ds[..n] + [ds[n]];
      assert Flatten(sent) + rest + [ds[n]] == batch + ds;
      if |grown| >= maxBatchSize {
        assert Flatten(sent + [grown]) == Flatten(sent) + grown by {
          assert (sent + [grown])[..|sent|] == sent;
        }
      }
    }
  }

  /** What a bulk send with auto-flush sends: the batches sent on the way,
      then what is left, if anything. */
  function SentWithFlush(batch: seq<Dict>, ds: seq<Dict>, maxBatchSize: int): seq<seq<Dict>>
  {
    var (sent, rest) := Chunk(batch, ds, maxBatchSize);
    if rest == [] then sent else sent + [rest]
  }

  /** With auto-flush every update reaches the client, in order, and no
      batch sent is empty. */
  lemma FlushSendsAll(batch: seq<Dict>, ds: seq<Dict>, maxBatchSize: int)
    ensures Flatten(SentWithFlush(batch, ds, maxBatchSize)) == batch + ds
    ensures forall i :: 0 <= i < |SentWithFlush(batch, ds, maxBatchSize)| ==> SentWithFlush(batch, ds, maxBatchSize)[i] != []
  {
    ChunkKeepsAll(batch, ds, maxBatchSize);
    var (sent, rest) := Chunk(batch, ds, maxBatchSize);
    if rest != [] {
      assert (sent + [rest])[..|sent|] == sent;
    }
  }

  /** The messages sending each of `batches` to `client` makes; none when
      its sends fail. */
  function BatchMessages(client: string, batches: seq<seq<Dict>>, compress: bool, failing: set<string>, nowIso: string)
    : (ms: seq<Emission<Payload>>)
    ensures client in failing ==> ms == []
    ensures client !in failing ==> |ms| == |batches|
    ensures AllIn(ms, {client})
  {
    if client in failing || |batches| == 0 then []
    else
      var n := |batches| - 1;
      BatchMessages(client, batches[..n], compress, failing, nowIso)
        + [Emission("batch_update", client, BatchPayload(batches[n], compress, nowIso))]
  }

  /** The `i`-th message carries the `i`-th batch. */
  lemma {:induction false} BatchMessagesAt(client: string, batches: seq<seq<Dict>>, compress: bool,
                                           failing: set<string>, nowIso: string, i: nat)
    requires client !in failing && i < |batches|
    ensures BatchMessages(client, batches, compress, failing, nowIso)[i] ==
      Emission("batch_update", client, BatchPayload(batches[i], compress, nowIso))
    decreases |batches|
  {
    var n := |batches| - 1;
    if i < n {
      BatchMessagesAt(client, batches[..n], compress, failing, nowIso, i);
    }
  }

  /** What `Chunk` leaves pending after one more dict is what serving
      that dict leaves. */
  lemma ChunkRest(batch: seq<Dict>, ds: seq<Dict>, d: Dict, caps: map<string, Capabilities>, config: BatchConfig,
                  client: string)
    requires SupportsBatch(caps, client)
    ensures Chunk(batch, ds + [d], config.maxBatchSize).1 ==
      ServedBatch(Chunk(batch, ds, config.maxBatchSize).1, caps, config, client, d)
  {
    assert (ds + [d])[..|ds|] == ds;
  }

  /** The batches `Chunk` sends after one more dict are those it sent
      before and the messages serving that dict sends. */
  lemma ChunkSent(batch: seq<Dict>, ds: seq<Dict>, d: Dict, caps: map<string, Capabilities>, config: BatchConfig,
                  client: string, failing: set<string>, sizes: Sizes, nowIso: string)
    requires WellFormed(d) && SupportsBatch(caps, client)
    ensures BatchMessages(client, Chunk(batch, ds + [d], config.maxBatchSize).0, BatchCompress(caps, config, client), failing, nowIso) ==
      BatchMessages(client, Chunk(batch, ds, config.maxBatchSize).0, BatchCompress(caps, config, client), failing, nowIso)
        + ServedMessages(Chunk(batch, ds, config.maxBatchSize).1, caps, config, client, d, failing, sizes, nowIso)
  {
    assert (ds + [d])[..|ds|] == ds;
    var (sent, rest) := Chunk(batch, ds, config.maxBatchSize);
    assert (sent + [rest + [d]])[..|sent|] == sent;
  }

  /** The part of the service's state that serving a client changes,
      besides the baselines: the pending batches and the outbox. */
  datatype Feed = Feed(pending: map<string, seq<Dict>>, outbox: seq<Emission<Payload>>)

  /** Serving `client` the update dict `d`: batched, or sent on its own. */
  function Fed(f: Feed, caps: map<string, Capabilities>, config: BatchConfig, client: string, d: Dict,
               failing: set<string>, sizes: Sizes, nowIso: string): (g: Feed)
    requires WellFormed(d)
    ensures !SupportsBatch(caps, client) ==> g.pending == f.pending
  {
    var before := PendingOf(f.pending, client);
    Feed(if SupportsBatch(caps, client) then f.pending[client := ServedBatch(before, caps, config, client, d)] else f.pending,
         f.outbox + ServedMessages(before, caps, config, client, d, failing, sizes, nowIso))
  }

  /** Serving `client` each of `ds` in turn. */
  function FedAll(f: Feed, caps: map<string, Capabilities>, config: BatchConfig, client: string, ds: seq<Dict>,
                  failing: set<string>, sizes: Sizes, nowIso: string): Feed
    requires forall i :: 0 <= i < |ds| ==> WellFormed(ds[i])
  {
    if |ds| == 0 then f
    else
      var n := |ds| - 1;
      Fed(FedAll(f, caps, config, client, ds[..n], failing, sizes, nowIso), caps, config, client, ds[n], failing, sizes, nowIso)
  }

  /** Serving one more dict is one more step. */
  lemma FedAllSnoc(f: Feed, caps: map<string, Capabilities>, config: BatchConfig, client: string, ds: seq<Dict>, i: nat,
                   failing: set<string>, sizes: Sizes, nowIso: string)
    requires forall j :: 0 <= j < |ds| ==> WellFormed(ds[j])
    requires i < |ds|
    ensures FedAll(f, caps, config, client, ds[..i + 1], failing, sizes, nowIso) ==
      Fed(FedAll(f, caps, config, client, ds[..i], failing, sizes, nowIso), caps, config, client, ds[i], failing, sizes, nowIso)
  {
    assert ds[..i + 1][..i] == ds[..i];
  }

  /** A second update of the same key overrides the first. */
  lemma Overridden(m: map<string, seq<Dict>>, k: string, x: seq<Dict>, y: seq<Dict>)
    ensures m[k := x][k := y] == m[k := y]
  {
    assert m[k := x][k := y].Keys == m[k := y].Keys;
  }

  /** Concatenation regroups freely. */
  lemma Regrouped<T>(a: seq<T>, b: seq<T>, c: seq<T>)
    ensures a + b + c == a + (b + c)
  {
  }

  /** Serving a batching client dicts one by one leaves pending what
      `Chunk` leaves, and no other client's batch changes. */
  lemma {:induction false} FedAllPending(f: Feed, caps: map<string, Capabilities>, config: BatchConfig, client: string,
                                         ds: seq<Dict>, failing: set<string>, sizes: Sizes, nowIso: string)
    requires forall i :: 0 <= i < |ds| ==> WellFormed(ds[i])
    requires SupportsBatch(caps, client)
    ensures var g := FedAll(f, caps, config, client, ds, failing, sizes, nowIso);
      var rest := Chunk(PendingOf(f.pending, client), ds, config.maxBatchSize).1;
      && PendingOf(g.pending, client) == rest
      && g.pending == if |ds| == 0 then f.pending else f.pending[client := rest]
    decreases |ds|
  {
    if |ds| > 0 {
      var n := |ds| - 1;
      var batch := PendingOf(f.pending, client);
      FedAllPending(f, caps, config, client, ds[..n], failing, sizes, nowIso);
      var g := FedAll(f, caps, config, client, ds[..n], failing, sizes, nowIso);
      var rest := Chunk(batch, ds[..n], config.maxBatchSize).1;
      assert ds[..n] + [ds[n]] == ds;
      ChunkRest(batch, ds[..n], ds[n], caps, config, client);
      var last := Chunk(batch, ds, config.maxBatchSize).1;
      assert g.pending[client := last] == f.pending[client := last] by {
        if n > 0 {
          Overridden(f.pending, client, rest, last);
        }
      }
    }
  }

  /** Serving a batching client dicts one by one sends exactly the
      batches `Chunk` sends. */
  lemma {:induction false} FedAllBatching(f: Feed, caps: map<string, Capabilities>, config: BatchConfig, client: string,
                                          ds: seq<Dict>, failing: set<string>, sizes: Sizes, nowIso: string)
    requires forall i :: 0 <= i < |ds| ==> WellFormed(ds[i])
    requires SupportsBatch(caps, client)
    ensures FedAll(f, caps, config, client, ds, failing, sizes, nowIso).outbox == f.outbox +
      BatchMessages(client, Chunk(PendingOf(f.pending, client), ds, config.maxBatchSize).0,
                    BatchCompress(caps, config, client), failing, nowIso)
    decreases |ds|
  {
    if |ds| > 0 {
      var n := |ds| - 1;
      var batch := PendingOf(f.pending, client);
      var compress := BatchCompress(caps, config, client);
      FedAllBatching(f, caps, config, client, ds[..n], failing, sizes, nowIso);
      FedAllLast(f, caps, config, client, ds, failing, sizes, nowIso);
      ChunkSentLast(batch, ds, caps, config, client, failing, sizes, nowIso);
      Regrouped(f.outbox, BatchMessages(client, Chunk(batch, ds[..n], config.maxBatchSize).0, compress, failing, nowIso),
                ServedMessages(Chunk(batch, ds[..n], config.maxBatchSize).1, caps, config, client, ds[n], failing, sizes, nowIso));
    }
  }

  /** The last dict served to a batching client is served against the
      batch the earlier ones left. */
  lemma FedAllLast(f: Feed, caps: map<string, Capabilities>, config: BatchConfig, client: string,
                   ds: seq<Dict>, failing: set<string>, sizes: Sizes, nowIso: string)
    requires forall i :: 0 <= i < |ds| ==> WellFormed(ds[i])
    requires SupportsBatch(caps, client) && |ds| > 0
    ensures FedAll(f, caps, config, client, ds, failing, sizes, nowIso).outbox ==
      FedAll(f, caps, config, client, ds[..|ds| - 1], failing, sizes, nowIso).outbox +
      ServedMessages(Chunk(PendingOf(f.pending, client), ds[..|ds| - 1], config.maxBatchSize).1, caps, config, client,
                     ds[|ds| - 1], failing, sizes, nowIso)
  {
    FedAllPending(f, caps, config, client, ds[..|ds| - 1], failing, sizes, nowIso);
  }

  /** `ChunkSent` for the last dict of `ds`. */
  lemma ChunkSentLast(batch: seq<Dict>, ds: seq<Dict>, caps: map<string, Capabilities>, config: BatchConfig,
                      client: string, failing: set<string>, sizes: Sizes, nowIso: string)
    requires |ds| > 0 && WellFormed(ds[|ds| - 1]) && SupportsBatch(caps, client)
    ensures BatchMessages(client, Chunk(batch, ds, config.maxBatchSize).0, BatchCompress(caps, config, client), failing, nowIso) ==
      BatchMessages(client, Chunk(batch, ds[..|ds| - 1], config.maxBatchSize).0, BatchCompress(caps, config, client), failing, nowIso)
        + ServedMessages(Chunk(batch, ds[..|ds| - 1], config.maxBatchSize).1, caps, config, client, ds[|ds| - 1],
                         failing, sizes, nowIso)
  {
    assert ds[..|ds| - 1] + [ds[|ds| - 1]] == ds;
    ChunkSent(batch, ds[..|ds| - 1], ds[|ds| - 1], caps, config, client, failing, sizes, nowIso);
  }

  /** Serving a client that does not batch dicts one by one sends each on
      its own. */
  lemma {:induction false} FedAllSingle(f: Feed, caps: map<string, Capabilities>, config: BatchConfig, client: string,
                                        ds: seq<Dict>, failing: set<string>, sizes: Sizes, nowIso: string)
    requires forall i :: 0 <= i < |ds| ==> WellFormed(ds[i])
    requires !SupportsBatch(caps, client)
    ensures var g := FedAll(f, caps, config, client, ds, failing, sizes, nowIso);
      && g.outbox == f.outbox + SingleMessages(caps, config, client, ds, failing, sizes, nowIso)
      && g.pending == f.pending
    decreases |ds|
  {
    if |ds| > 0 {
      var n := |ds| - 1;
      FedAllSingle(f, caps, config, client, ds[..n], failing, sizes, nowIso);
      var g := FedAll(f, caps, config, client, ds[..n], failing, sizes, nowIso);
      assert ds[..n] + [ds[n]] == ds;
      SingleMessagesSnoc(caps, config, client, ds[..n], ds[n], PendingOf(g.pending, client), failing, sizes, nowIso);
    }
  }

  /** The `i`-th dict of a bulk send is built against the baselines the
      earlier ones left. */
  lemma BulkDictsStep(cache: map<string, Dict>, updates: seq<StockUpdate>, delta: bool, nowIso: string, i: nat)
    requires forall j :: 0 <= j < |updates| ==> WellFormed(updates[j].data)
    requires i < |updates|
    ensures BulkDicts(cache, updates, delta, nowIso)[i] ==
      StockDict(Baselines(cache, updates[..i]), updates[i].symbol, updates[i].data, delta, nowIso)
    ensures Baselines(cache, updates[..i + 1]) == Baselines(cache, updates[..i])[updates[i].symbol := updates[i].data]
  {
    assert updates[..i + 1][..i] == updates[..i];
  }



  /** After the first `i` of `updates` were served to `client` from the
      baselines `cache0` and the deliveries `f0`: the baselines follow
      those updates, and the deliveries are those the first `i` bulk dicts
      make. */
  ghost predicate Progress(cache: map<string, Dict>, f: Feed, cache0: map<string, Dict>, f0: Feed,
                           caps: map<string, Capabilities>, config: BatchConfig, client: string, updates: seq<StockUpdate>,
                           i: nat, failing: set<string>, sizes: Sizes, nowIso: string)
    requires forall j :: 0 <= j < |updates| ==> WellFormed(updates[j].data)
    requires i <= |updates|
  {
    && cache == Baselines(cache0, updates[..i])
    && f == FedAll(f0, caps, config, client, BulkDicts(cache0, updates, SupportsDelta(caps, client), nowIso)[..i],
                   failing, sizes, nowIso)
  }

  /** Serving the `i`-th update advances the progress by one. */
  lemma ProgressStep(cache: map<string, Dict>, f: Feed, cache0: map<string, Dict>, f0: Feed,
                     caps: map<string, Capabilities>, config: BatchConfig, client: string, updates: seq<StockUpdate>,
                     i: nat, failing: set<string>, sizes: Sizes, nowIso: string)
    requires forall j :: 0 <= j < |updates| ==> WellFormed(updates[j].data)
    requires i < |updates|
    requires Progress(cache, f, cache0, f0, caps, config, client, updates, i, failing, sizes, nowIso)
    ensures Progress(cache[updates[i].symbol := updates[i].data],
                     Fed(f, caps, config, client,
                         StockDict(cache, updates[i].symbol, updates[i].data, SupportsDelta(caps, client), nowIso),
                         failing, sizes, nowIso),
                     cache0, f0, caps, config, client, updates, i + 1, failing, sizes, nowIso)
  {
    var ds := BulkDicts(cache0, updates, SupportsDelta(caps, client), nowIso);
    FedAllSnoc(f0, caps, config, client, ds, i, failing, sizes, nowIso);
    BulkDictsStep(cache0, updates, SupportsDelta(caps, client), nowIso, i);
  }

  /** Once every update was fed into a batching client's batch, the
      batches `Chunk` sends reach the outbox and what it leaves is
      pending. */
  lemma BatchedAll(cache: map<string, Dict>, f: Feed, cache0: map<string, Dict>, f0: Feed,
                   caps: map<string, Capabilities>, config: BatchConfig, client: string, updates: seq<StockUpdate>,
                   failing: set<string>, sizes: Sizes, nowIso: string)
    requires forall j :: 0 <= j < |updates| ==> WellFormed(updates[j].data)
    requires SupportsBatch(caps, client)
    requires Progress(cache, f, cache0, f0, caps, config, client, updates, |updates|, failing, sizes, nowIso)
    ensures var ds := BulkDicts(cache0, updates, SupportsDelta(caps, client), nowIso);
      var chunk := Chunk(PendingOf(f0.pending, client), ds, config.maxBatchSize);
      && f.outbox == f0.outbox + BatchMessages(client, chunk.0, BatchCompress(caps, config, client), failing, nowIso)
      && PendingOf(f.pending, client) == chunk.1
      && (forall c :: c != client ==> PendingOf(f.pending, c) == PendingOf(f0.pending, c))
      && f.pending == if |updates| == 0 then f0.pending else f0.pending[client := chunk.1]
    ensures cache == Baselines(cache0, updates)
  {
    var ds := BulkDicts(cache0, updates, SupportsDelta(caps, client), nowIso);
    assert updates[..|updates|] == updates && ds[..|updates|] == ds;
    FedAllPending(f0, caps, config, client, ds, failing, sizes, nowIso);
    FedAllBatching(f0, caps, config, client, ds, failing, sizes, nowIso);
  }

  /** Once the updates a client that does not batch was sent one by one
      ran out, or its first send failed, its outbox holds the single
      messages of the dicts of those updates. */
  lemma SentAll(cache: map<string, Dict>, f: Feed, cache0: map<string, Dict>, f0: Feed,
                caps: map<string, Capabilities>, config: BatchConfig, client: string, updates: seq<StockUpdate>,
                i: nat, failing: set<string>, sizes: Sizes, nowIso: string)
    requires forall j :: 0 <= j < |updates| ==> WellFormed(updates[j].data)
    requires !SupportsBatch(caps, client)
    requires i == |Processed(updates, client !in failing)|
    requires Progress(cache, f, cache0, f0, caps, config, client, updates, i, failing, sizes, nowIso)
    ensures f.outbox == f0.outbox + SingleMessages(caps, config, client,
      BulkDicts(cache0, updates, SupportsDelta(caps, client), nowIso), failing, sizes, nowIso)
    ensures f.pending == f0.pending
    ensures cache == Baselines(cache0, Processed(updates, client !in failing))
  {
    var ds := BulkDicts(cache0, updates, SupportsDelta(caps, client), nowIso);
    assert updates[..i] == Processed(updates, client !in failing);
    FedAllSingle(f0, caps, config, client, ds[..i], failing, sizes, nowIso);
    if client !in failing {
      assert ds[..i] == ds;
    }
  }

  /** Auto-flush sends what is left after batching `ds`, when anything
      is. */
  lemma FlushServed(batch: seq<Dict>, ds: seq<Dict>, caps: map<string, Capabilities>, config: BatchConfig,
                    client: string, failing: set<string>, nowIso: string)
    ensures BatchMessages(client, SentWithFlush(batch, ds, config.maxBatchSize), BatchCompress(caps, config, client), failing, nowIso) ==
      BatchMessages(client, Chunk(batch, ds, config.maxBatchSize).0, BatchCompress(caps, config, client), failing, nowIso)
        + FlushMessages(Chunk(batch, ds, config.maxBatchSize).1, caps, config, client, failing, nowIso)
  {
    var (sent, rest) := Chunk(batch, ds, config.maxBatchSize);
    assert (sent + [rest])[..|sent|] == sent;
  }

  /** Feeding `ds` into the batch and then flushing what is left sends
      the batches `SentWithFlush` describes. */
  lemma FlushedAfter(out0: seq<Emission<Payload>>, out1: seq<Emission<Payload>>, out2: seq<Emission<Payload>>,
                     batch: seq<Dict>, ds: seq<Dict>, caps: map<string, Capabilities>, config: BatchConfig,
                     client: string, failing: set<string>, nowIso: string)
    requires out1 == out0 + BatchMessages(client, Chunk(batch, ds, config.maxBatchSize).0,
                                          BatchCompress(caps, config, client), failing, nowIso)
    requires out2 == out1 + FlushMessages(Chunk(batch, ds, config.maxBatchSize).1, caps, config, client, failing, nowIso)
    ensures out2 == out0 + BatchMessages(client, SentWithFlush(batch, ds, config.maxBatchSize),
                                         BatchCompress(caps, config, client), failing, nowIso)
  {
    FlushServed(batch, ds, caps, config, client, failing, nowIso);
    Regrouped(out0, BatchMessages(client, Chunk(batch, ds, config.maxBatchSize).0, BatchCompress(caps, config, client),
                                  failing, nowIso),
              FlushMessages(Chunk(batch, ds, config.maxBatchSize).1, caps, config, client, failing, nowIso));
  }

  /** What `_send_bulk_updates_to_client` sends `client` for the dicts
      `ds`, `batch` being its pending batch. */
  function BulkMessages(batch: seq<Dict>, caps: map<string, Capabilities>, config: BatchConfig, client: string,
                        ds: seq<Dict>, autoFlush: bool, failing: set<string>, sizes: Sizes, nowIso: string)
    : (ms: seq<Emission<Payload>>)
    requires forall i :: 0 <= i < |ds| ==> WellFormed(ds[i])
    ensures AllIn(ms, {client})
  {
    if SupportsBatch(caps, client) then
      BatchMessages(client,
        if autoFlush then SentWithFlush(batch, ds, config.maxBatchSize) else Chunk(batch, ds, config.maxBatchSize).0,
        BatchCompress(caps, config, client), failing, nowIso)
    else SingleMessages(caps, config, client, ds, failing, sizes, nowIso)
  }

  /** The client's pending batch after `_send_bulk_updates_to_client`. */
  function BulkBatch(batch: seq<Dict>, caps: map<string, Capabilities>, config: BatchConfig, client: string,
                     ds: seq<Dict>, autoFlush: bool): seq<Dict>
  {
    if !SupportsBatch(caps, client) then batch
    else if autoFlush then []
    else Chunk(batch, ds, config.maxBatchSize).1
  }

  /** Sending `ms`, all to `client`, extends the outbox with emissions
      to `client` only. */
  lemma ExtendsWith(s: seq<Emission<Payload>>, ms: seq<Emission<Payload>>, client: string)
    requires AllIn(ms, {client})
    ensures Extends(s, s + ms, {client})
  {
    assert (s + ms)[..|s|] == s;
    assert (s + ms)[|s|..] == ms;
  }

  /** Appending messages to one of the rooms keeps the extension within
      the rooms. */
  lemma ExtendsWithin(out0: seq<Emission<Payload>>, s: seq<Emission<Payload>>, ms: seq<Emission<Payload>>,
                      rooms: set<string>, client: string)
    requires Extends(out0, s, rooms) && AllIn(ms, {client}) && client in rooms
    ensures Extends(out0, s + ms, rooms)
  {
    ExtendsWith(s, ms, client);
    ExtendsTrans(out0, s, s + ms, rooms, {client});
  }

  /** The messages of `s` addressed to `room`, in order. */
  function ToRoom(s: seq<Emission<Payload>>, room: string): (r: seq<Emission<Payload>>)
    ensures |r| <= |s|
  {
    if |s| == 0 then []
    else ToRoom(s[..|s| - 1], room) + (if s[|s| - 1].room == room then [s[|s| - 1]] else [])
  }

  lemma {:induction false} ToRoomConcat(s: seq<Emission<Payload>>, t: seq<Emission<Payload>>, room: string)
    ensures ToRoom(s + t, room) == ToRoom(s, room) + ToRoom(t, room)
    decreases |t|
  {
    if |t| == 0 {
      assert s + t == s;
    } else {
      var n := |t| - 1;
      ToRoomConcat(s, t[..n], room);
      assert (s + t)[..|s + t| - 1] == s + t[..n];
    }
  }

  /** Messages all addressed to `client` are all `client`'s. */
  lemma {:induction false} ToRoomOwn(ms: seq<Emission<Payload>>, client: string, room: string)
    requires AllIn(ms, {client})
    ensures ToRoom(ms, room) == if room == client then ms else []
    decreases |ms|
  {
    if |ms| > 0 {
      var n := |ms| - 1;
      ToRoomOwn(ms[..n], client, room);
      assert ms == ms[..n] + [ms[n]];
    }
  }

  /** After sending `ms` to `client`, `room` holds what it held, plus
      `ms` if it is `client`'s. */
  lemma RoomAfter(s: seq<Emission<Payload>>, ms: seq<Emission<Payload>>, client: string, room: string)
    requires AllIn(ms, {client})
    ensures ToRoom(s + ms, room) == ToRoom(s, room) + (if room == client then ms else [])
  {
    ToRoomConcat(s, ms, room);
    ToRoomOwn(ms, client, room);
  }

  /** What `_send_update_to_client` left for a subscriber `c` of `symbol`
      in one `send_optimized_stock_update`: the update built against the
      baseline before the call, or against `data` itself when another
      subscriber was served first and moved the shared baseline. */
  predicate Pushed(msgs: seq<Emission<Payload>>, batch: seq<Dict>, before: seq<Dict>, caps: map<string, Capabilities>,
                   config: BatchConfig, c: string, cache0: map<string, Dict>, symbol: string, data: Dict,
                   forceFullUpdate: bool, failing: set<string>, sizes: Sizes, nowIso: string)
    requires WellFormed(data)
  {
    var delta := SupportsDelta(caps, c) && !forceFullUpdate;
    || ServedOnce(msgs, batch, before, caps, config, c, StockDict(cache0, symbol, data, delta, nowIso), failing, sizes, nowIso)
    || ServedOnce(msgs, batch, before, caps, config, c, StockDict(cache0[symbol := data], symbol, data, delta, nowIso),
                  failing, sizes, nowIso)
  }

  /** What one client was sent and left pending in a call. */
  type Outcome = (seq<Emission<Payload>>, seq<Dict>)

  /** Part way through `send_optimized_stock_update`: each client in
      `served` received exactly the messages and holds exactly the batch
      it maps to, and nobody else was sent anything or had their batch
      changed. */
  ghost predicate ReachedSoFar(pending: map<string, seq<Dict>>, outbox: seq<Emission<Payload>>,
                               pending0: map<string, seq<Dict>>, out0: seq<Emission<Payload>>,
                               served: map<string, Outcome>)
  {
    && Extends(out0, outbox, served.Keys)
    && (forall c :: c !in served ==>
          ToRoom(outbox[|out0|..], c) == [] && PendingOf(pending, c) == PendingOf(pending0, c))
    && (forall c :: c in served ==>
          ToRoom(outbox[|out0|..], c) == served[c].0 && PendingOf(pending, c) == served[c].1)
  }

  /** Sending `ms` to one more client, and changing no other client's
      batch, keeps `ReachedSoFar`. */
  lemma ReachedGrow(pending: map<string, seq<Dict>>, pending': map<string, seq<Dict>>,
                    outbox: seq<Emission<Payload>>, outcome: Outcome,
                    pending0: map<string, seq<Dict>>, out0: seq<Emission<Payload>>,
                    served: map<string, Outcome>, client: string)
    requires ReachedSoFar(pending, outbox, pending0, out0, served)
    requires client !in served && AllIn(outcome.0, {client}) && PendingOf(pending', client) == outcome.1
    requires forall c :: c != client ==> PendingOf(pending', c) == PendingOf(pending, c)
    ensures PendingOf(pending, client) == PendingOf(pending0, client)
    ensures ReachedSoFar(pending', outbox + outcome.0, pending0, out0, served[client := outcome])
  {
    ExtendsGrow(outbox, outcome.0, out0, served.Keys, client);
    assert served[client := outcome].Keys == served.Keys + {client};
    RoomsReached(pending, pending', outbox, outcome, pending0, out0, served, client);
  }

  /** The outbox part of `ReachedGrow`. */
  lemma ExtendsGrow(outbox: seq<Emission<Payload>>, ms: seq<Emission<Payload>>, out0: seq<Emission<Payload>>,
                    rooms: set<string>, client: string)
    requires Extends(out0, outbox, rooms) && AllIn(ms, {client})
    ensures Extends(out0, outbox + ms, rooms + {client})
    ensures (outbox + ms)[|out0|..] == outbox[|out0|..] + ms
  {
    ExtendsMore(out0, outbox, rooms, rooms + {client});
    ExtendsWith(outbox, ms, client);
    ExtendsTrans(out0, outbox, outbox + ms, rooms + {client}, {client});
    SliceAppend(outbox, ms, |out0|);
  }

  /** The per-room part of `ReachedGrow`. */
  lemma RoomsReached(pending: map<string, seq<Dict>>, pending': map<string, seq<Dict>>,
                     outbox: seq<Emission<Payload>>, outcome: Outcome,
                     pending0: map<string, seq<Dict>>, out0: seq<Emission<Payload>>,
                     served: map<string, Outcome>, client: string)
    requires ReachedSoFar(pending, outbox, pending0, out0, served)
    requires client !in served && AllIn(outcome.0, {client}) && PendingOf(pending', client) == outcome.1
    requires forall c :: c != client ==> PendingOf(pending', c) == PendingOf(pending, c)
    requires |outbox| >= |out0|
    ensures && (forall c :: c !in served[client := outcome] ==>
                  ToRoom((outbox + outcome.0)[|out0|..], c) == [] && PendingOf(pending', c) == PendingOf(pending0, c))
            && (forall c :: c in served[client := outcome] ==>
                  ToRoom((outbox + outcome.0)[|out0|..], c) == served[client := outcome][c].0
                  && PendingOf(pending', c) == served[client := outcome][c].1)
  {
    var sent := outbox[|out0|..];
    SliceAppend(outbox, outcome.0, |out0|);
    forall c | c !in served[client := outcome]
      ensures ToRoom((outbox + outcome.0)[|out0|..], c) == [] && PendingOf(pending', c) == PendingOf(pending0, c)
    {
      RoomAfter(sent, outcome.0, client, c);
    }
    forall c | c in served[client := outcome]
      ensures ToRoom((outbox + outcome.0)[|out0|..], c) == served[client := outcome][c].0
      ensures PendingOf(pending', c) == served[client := outcome][c].1
    {
      RoomAfter(sent, outcome.0, client, c);
    }
  }

  /** `ms` is what a bulk send with auto-flush of the updates `mine`
      sends `client`, its batch being `batch`, the dicts built against
      some baselines. */
  ghost predicate BulkSent(ms: seq<Emission<Payload>>, batch: seq<Dict>, caps: map<string, Capabilities>,
                           config: BatchConfig, client: string, mine: seq<StockUpdate>,
                           failing: set<string>, sizes: Sizes, nowIso: string)
    requires forall i :: 0 <= i < |mine| ==> WellFormed(mine[i].data)
  {
    exists cache: map<string, Dict> ::
      ms == BulkMessages(batch, caps, config, client, BulkDicts(cache, mine, SupportsDelta(caps, client), nowIso),
                         true, failing, sizes, nowIso)
  }

  /** A bulk send against the baselines `cache` is one `BulkSent` allows. */
  lemma BulkSentBy(cache: map<string, Dict>, batch: seq<Dict>, caps: map<string, Capabilities>, config: BatchConfig,
                   client: string, mine: seq<StockUpdate>, failing: set<string>, sizes: Sizes, nowIso: string)
    requires forall i :: 0 <= i < |mine| ==> WellFormed(mine[i].data)
    ensures BulkSent(BulkMessages(batch, caps, config, client, BulkDicts(cache, mine, SupportsDelta(caps, client), nowIso),
                                  true, failing, sizes, nowIso),
                     batch, caps, config, client, mine, failing, sizes, nowIso)
  {
  }

  /** The batch a bulk send with auto-flush leaves: empty for a client
      that batches, untouched otherwise. */
  function Flushed(batch: seq<Dict>, caps: map<string, Capabilities>, client: string): (r: seq<Dict>)
    ensures forall config, ds :: r == BulkBatch(batch, caps, config, client, ds, true)
  {
    if SupportsBatch(caps, client) then [] else batch
  }

  /** Every client in `got` was sent in bulk, with auto-flush, its own
      updates, and was left with the batch `Flushed` says. */
  ghost predicate BulkServed(got: map<string, Outcome>, pending0: map<string, seq<Dict>>,
                             caps: map<string, Capabilities>, config: BatchConfig, updates: seq<StockUpdate>,
                             subscribers: WebSockets.Index, failing: set<string>, sizes: Sizes, nowIso: string)
    requires forall i :: 0 <= i < |updates| ==> WellFormed(updates[i].data)
  {
    forall c :: c in got ==>
      && got[c].1 == Flushed(PendingOf(pending0, c), caps, c)
      && BulkSent(got[c].0, PendingOf(pending0, c), caps, config, c, UpdatesFor(updates, subscribers, c),
                  failing, sizes, nowIso)
  }

  /** One more client served in bulk keeps `BulkServed`. */
  lemma BulkServedGrow(got: map<string, Outcome>, client: string, outcome: Outcome,
                       pending0: map<string, seq<Dict>>, caps: map<string, Capabilities>, config: BatchConfig,
                       updates: seq<StockUpdate>, subscribers: WebSockets.Index, failing: set<string>, sizes: Sizes,
                       nowIso: string)
    requires forall i :: 0 <= i < |updates| ==> WellFormed(updates[i].data)
    requires BulkServed(got, pending0, caps, config, updates, subscribers, failing, sizes, nowIso)
    requires outcome.1 == Flushed(PendingOf(pending0, client), caps, client)
    requires BulkSent(outcome.0, PendingOf(pending0, client), caps, config, client, UpdatesFor(updates, subscribers, client),
                      failing, sizes, nowIso)
    ensures BulkServed(got[client := outcome], pending0, caps, config, updates, subscribers, failing, sizes, nowIso)
  {
    var got' := got[client := outcome];
    forall c | c in got'
      ensures got'[c].1 == Flushed(PendingOf(pending0, c), caps, c)
      ensures BulkSent(got'[c].0, PendingOf(pending0, c), caps, config, c, UpdatesFor(updates, subscribers, c),
                       failing, sizes, nowIso)
    {
      if c != client {
        assert got'[c] == got[c];
      }
    }
  }

  /** When every recipient was served: what `broadcast_optimized_updates`
      promises about the outbox and the batches. */
  lemma BroadcastAll(pending: map<string, seq<Dict>>, outbox: seq<Emission<Payload>>,
                     pending0: map<string, seq<Dict>>, out0: seq<Emission<Payload>>, got: map<string, Outcome>,
                     served: set<string>, caps: map<string, Capabilities>, config: BatchConfig,
                     updates: seq<StockUpdate>, subscribers: WebSockets.Index, failing: set<string>, sizes: Sizes,
                     nowIso: string)
    requires forall i :: 0 <= i < |updates| ==> WellFormed(updates[i].data)
    requires ReachedSoFar(pending, outbox, pending0, out0, got) && got.Keys == served
    requires BulkServed(got, pending0, caps, config, updates, subscribers, failing, sizes, nowIso)
    ensures Extends(out0, outbox, served)
    ensures forall c :: c !in served ==> ToRoom(outbox[|out0|..], c) == [] && PendingOf(pending, c) == PendingOf(pending0, c)
    ensures forall c :: c in served ==> PendingOf(pending, c) == Flushed(PendingOf(pending0, c), caps, c)
    ensures forall c :: c in served ==>
      BulkSent(ToRoom(outbox[|out0|..], c), PendingOf(pending0, c), caps, config, c, UpdatesFor(updates, subscribers, c),
               failing, sizes, nowIso)
  {
  }

  /** `order[..i + 1]` has one member more than `order[..i]`. */
  lemma MembersNext(order: seq<string>, i: nat)
    requires i < |order|
    ensures Members(order[..i + 1]) == Members(order[..i]) + {order[i]}
  {
    assert order[..i + 1][..i] == order[..i];
    MembersSnoc(order[..i + 1]);
  }

  /** Each client in `served` got what `Pushed` allows; and the baseline
      of `symbol` is the one before the call or `data`. */
  ghost predicate GotFrom(served: map<string, Outcome>, cache: map<string, Dict>, cache0: map<string, Dict>,
                          pending0: map<string, seq<Dict>>, caps: map<string, Capabilities>, config: BatchConfig,
                          symbol: string, data: Dict, forceFullUpdate: bool, failing: set<string>, sizes: Sizes, nowIso: string)
    requires WellFormed(data)
  {
    && (cache == cache0 || cache == cache0[symbol := data])
    && forall c :: c in served ==>
         Pushed(served[c].0, served[c].1, PendingOf(pending0, c), caps, config, c,
                cache0, symbol, data, forceFullUpdate, failing, sizes, nowIso)
  }

  /** Serving one more client, with an outcome `Pushed` allows, keeps
      `GotFrom` once `data` is the baseline of `symbol`. */
  lemma GotGrow(served: map<string, Outcome>, cache: map<string, Dict>, cache0: map<string, Dict>,
                pending0: map<string, seq<Dict>>, caps: map<string, Capabilities>, config: BatchConfig, client: string,
                outcome: Outcome, symbol: string, data: Dict, forceFullUpdate: bool, failing: set<string>, sizes: Sizes,
                nowIso: string)
    requires WellFormed(data)
    requires GotFrom(served, cache, cache0, pending0, caps, config, symbol, data, forceFullUpdate, failing, sizes, nowIso)
    requires Pushed(outcome.0, outcome.1, PendingOf(pending0, client), caps, config, client,
                    cache0, symbol, data, forceFullUpdate, failing, sizes, nowIso)
    ensures GotFrom(served[client := outcome], cache[symbol := data], cache0, pending0, caps, config,
                    symbol, data, forceFullUpdate, failing, sizes, nowIso)
  {
    BaselineAfter(cache, cache0, symbol, data);
    PushedKept(served, client, outcome, pending0, caps, config, cache0, symbol, data, forceFullUpdate,
               failing, sizes, nowIso);
  }

  /** Storing `data` as the baseline of `symbol` leaves the baseline
      `GotFrom` expects after anyone was served. */
  lemma BaselineAfter(cache: map<string, Dict>, cache0: map<string, Dict>, symbol: string, data: Dict)
    requires cache == cache0 || cache == cache0[symbol := data]
    ensures cache[symbol := data] == cache0[symbol := data]
  {
    if cache != cache0 {
      assert cache[symbol := data] == cache0[symbol := data][symbol := data];
    }
  }

  /** Adding one client's outcome to `served` keeps what `Pushed` says
      about the others. */
  lemma PushedKept(served: map<string, Outcome>, client: string, outcome: Outcome, pending0: map<string, seq<Dict>>,
                   caps: map<string, Capabilities>, config: BatchConfig, cache0: map<string, Dict>,
                   symbol: string, data: Dict, forceFullUpdate: bool, failing: set<string>, sizes: Sizes, nowIso: string)
    requires WellFormed(data)
    requires forall c :: c in served ==>
      Pushed(served[c].0, served[c].1, PendingOf(pending0, c), caps, config, c,
             cache0, symbol, data, forceFullUpdate, failing, sizes, nowIso)
    requires Pushed(outcome.0, outcome.1, PendingOf(pending0, client), caps, config, client,
                    cache0, symbol, data, forceFullUpdate, failing, sizes, nowIso)
    ensures forall c :: c in served[client := outcome] ==>
      Pushed(served[client := outcome][c].0, served[client := outcome][c].1, PendingOf(pending0, c), caps, config, c,
             cache0, symbol, data, forceFullUpdate, failing, sizes, nowIso)
  {
  }

  /** The baseline of `symbol` after `n` subscribers were served: the
      first one moves it to `data`. */
  function SharedBaseline(cache0: map<string, Dict>, symbol: string, data: Dict, n: nat): (r: map<string, Dict>)
    ensures n > 0 ==> r[symbol := data] == r
  {
    if n == 0 then cache0 else cache0[symbol := data]
  }

  /** One subscriber's turn of `send_optimized_stock_update`:
      `_send_update_to_client` with the baseline `cache`. */
  function Step(f: Feed, cache: map<string, Dict>, caps: map<string, Capabilities>, config: BatchConfig, client: string,
                symbol: string, data: Dict, forceFullUpdate: bool, failing: set<string>, sizes: Sizes, nowIso: string): Feed
    requires WellFormed(data)
  {
    Fed(f, caps, config, client, StockDict(cache, symbol, data, SupportsDelta(caps, client) && !forceFullUpdate, nowIso),
        failing, sizes, nowIso)
  }

  /** What that turn sent the subscriber and left in its batch. */
  function Turn(f: Feed, cache: map<string, Dict>, caps: map<string, Capabilities>, config: BatchConfig, client: string,
                symbol: string, data: Dict, forceFullUpdate: bool, failing: set<string>, sizes: Sizes, nowIso: string): Outcome
    requires WellFormed(data)
  {
    var d := StockDict(cache, symbol, data, SupportsDelta(caps, client) && !forceFullUpdate, nowIso);
    (ServedMessages(PendingOf(f.pending, client), caps, config, client, d, failing, sizes, nowIso),
     PendingOf(Step(f, cache, caps, config, client, symbol, data, forceFullUpdate, failing, sizes, nowIso).pending, client))
  }

  /** A turn adds to the outbox exactly what it sent the subscriber, all
      of it to the subscriber, and changes no other batch. */
  lemma StepOwn(f: Feed, cache: map<string, Dict>, caps: map<string, Capabilities>, config: BatchConfig, client: string,
                symbol: string, data: Dict, forceFullUpdate: bool, failing: set<string>, sizes: Sizes, nowIso: string)
    requires WellFormed(data)
    ensures var g := Step(f, cache, caps, config, client, symbol, data, forceFullUpdate, failing, sizes, nowIso);
      var t := Turn(f, cache, caps, config, client, symbol, data, forceFullUpdate, failing, sizes, nowIso);
      && g.outbox == f.outbox + t.0
      && AllIn(t.0, {client})
      && PendingOf(g.pending, client) == t.1
      && forall c :: c != client ==> PendingOf(g.pending, c) == PendingOf(f.pending, c)
  {
  }

  /** A turn against the baseline before the call or against `data` is
      one `Pushed` allows. */
  lemma TurnPushed(f: Feed, cache: map<string, Dict>, cache0: map<string, Dict>, caps: map<string, Capabilities>,
                   config: BatchConfig, client: string, symbol: string, data: Dict, forceFullUpdate: bool,
                   failing: set<string>, sizes: Sizes, nowIso: string)
    requires WellFormed(data)
    requires cache == cache0 || cache == cache0[symbol := data]
    ensures var t := Turn(f, cache, caps, config, client, symbol, data, forceFullUpdate, failing, sizes, nowIso);
      Pushed(t.0, t.1, PendingOf(f.pending, client), caps, config, client, cache0, symbol, data, forceFullUpdate,
             failing, sizes, nowIso)
  {
  }

  /** The subscribers in `order` served in turn, each against the shared
      baseline the earlier ones left. */
  function PushAll(f0: Feed, cache0: map<string, Dict>, order: seq<string>, caps: map<string, Capabilities>,
                   config: BatchConfig, symbol: string, data: Dict, forceFullUpdate: bool,
                   failing: set<string>, sizes: Sizes, nowIso: string): Feed
    requires WellFormed(data)
    decreases |order|
  {
    if |order| == 0 then f0
    else
      var n := |order| - 1;
      Step(PushAll(f0, cache0, order[..n], caps, config, symbol, data, forceFullUpdate, failing, sizes, nowIso),
           SharedBaseline(cache0, symbol, data, n), caps, config, order[n], symbol, data, forceFullUpdate,
           failing, sizes, nowIso)
  }

  /** The subscribers in `order`. */
  function Members(order: seq<string>): (r: set<string>)
    ensures forall c :: c in r <==> c in order
  {
    set c | c in order
  }

  /** Appending a new subscriber keeps `order` free of repeats. */
  lemma Appended(order: seq<string>, client: string)
    requires Distinct(order) && client !in order
    ensures Distinct(order + [client])
    ensures Members(order + [client]) == Members(order) + {client}
  {
  }

  /** Part way through `send_optimized_stock_update`: the baselines and
      the deliveries are those serving `order` in turn makes. */
  ghost predicate PushProgress(cache: map<string, Dict>, f: Feed, cache0: map<string, Dict>, f0: Feed, order: seq<string>,
                               caps: map<string, Capabilities>, config: BatchConfig, symbol: string, data: Dict,
                               forceFullUpdate: bool, failing: set<string>, sizes: Sizes, nowIso: string)
    requires WellFormed(data)
  {
    && cache == SharedBaseline(cache0, symbol, data, |order|)
    && f == PushAll(f0, cache0, order, caps, config, symbol, data, forceFullUpdate, failing, sizes, nowIso)
  }

  /** Serving one more subscriber advances the progress by one. */
  lemma PushProgressStep(cache: map<string, Dict>, f: Feed, cache0: map<string, Dict>, f0: Feed, order: seq<string>,
                         caps: map<string, Capabilities>, config: BatchConfig, client: string, symbol: string, data: Dict,
                         forceFullUpdate: bool, failing: set<string>, sizes: Sizes, nowIso: string)
    requires WellFormed(data)
    requires PushProgress(cache, f, cache0, f0, order, caps, config, symbol, data, forceFullUpdate, failing, sizes, nowIso)
    ensures PushProgress(cache[symbol := data],
                         Step(f, cache, caps, config, client, symbol, data, forceFullUpdate, failing, sizes, nowIso),
                         cache0, f0, order + [client], caps, config, symbol, data, forceFullUpdate, failing, sizes, nowIso)
  {
    assert (order + [client])[..|order|] == order;
    BaselineAfter(cache, cache0, symbol, data);
  }

  /** What each subscriber in `order` was sent and left pending, served
      in turn. */
  function ServedOf(f0: Feed, cache0: map<string, Dict>, order: seq<string>, caps: map<string, Capabilities>,
                    config: BatchConfig, symbol: string, data: Dict, forceFullUpdate: bool,
                    failing: set<string>, sizes: Sizes, nowIso: string): map<string, Outcome>
    requires WellFormed(data)
    decreases |order|
  {
    if |order| == 0 then map[]
    else
      var n := |order| - 1;
      ServedOf(f0, cache0, order[..n], caps, config, symbol, data, forceFullUpdate, failing, sizes, nowIso)
        [order[n] := Turn(PushAll(f0, cache0, order[..n], caps, config, symbol, data, forceFullUpdate, failing, sizes, nowIso),
                          SharedBaseline(cache0, symbol, data, n), caps, config, order[n], symbol, data, forceFullUpdate,
                          failing, sizes, nowIso)]
  }

  /** The last subscriber of `order` takes its turn and joins `ServedOf`
      with it. */
  lemma ServedOfSnoc(f0: Feed, cache0: map<string, Dict>, order: seq<string>, caps: map<string, Capabilities>,
                     config: BatchConfig, symbol: string, data: Dict, forceFullUpdate: bool,
                     failing: set<string>, sizes: Sizes, nowIso: string)
    requires WellFormed(data) && |order| > 0
    ensures PushAll(f0, cache0, order, caps, config, symbol, data, forceFullUpdate, failing, sizes, nowIso) ==
      Step(PushAll(f0, cache0, order[..|order| - 1], caps, config, symbol, data, forceFullUpdate, failing, sizes, nowIso),
           SharedBaseline(cache0, symbol, data, |order| - 1), caps, config, order[|order| - 1],
           symbol, data, forceFullUpdate, failing, sizes, nowIso)
    ensures ServedOf(f0, cache0, order, caps, config, symbol, data, forceFullUpdate, failing, sizes, nowIso) ==
      ServedOf(f0, cache0, order[..|order| - 1], caps, config, symbol, data, forceFullUpdate, failing, sizes, nowIso)
        [order[|order| - 1] := Turn(PushAll(f0, cache0, order[..|order| - 1], caps, config, symbol, data, forceFullUpdate,
                                            failing, sizes, nowIso),
                                    SharedBaseline(cache0, symbol, data, |order| - 1), caps, config, order[|order| - 1],
                                    symbol, data, forceFullUpdate, failing, sizes, nowIso)]
  {
  }

  /** `ServedOf` has exactly the subscribers in `order`. */
  lemma {:induction false} ServedKeys(f0: Feed, cache0: map<string, Dict>, order: seq<string>,
                                      caps: map<string, Capabilities>, config: BatchConfig, symbol: string, data: Dict,
                                      forceFullUpdate: bool, failing: set<string>, sizes: Sizes, nowIso: string)
    requires WellFormed(data)
    ensures ServedOf(f0, cache0, order, caps, config, symbol, data, forceFullUpdate, failing, sizes, nowIso).Keys ==
      Members(order)
    decreases |order|
  {
    if |order| > 0 {
      var n := |order| - 1;
      ServedKeys(f0, cache0, order[..n], caps, config, symbol, data, forceFullUpdate, failing, sizes, nowIso);
      MembersSnoc(order);
    }
  }

  /** The last subscriber of `order` joins the others. */
  lemma MembersSnoc(order: seq<string>)
    requires |order| > 0
    ensures Members(order) == Members(order[..|order| - 1]) + {order[|order| - 1]}
  {
    var n := |order| - 1;
    forall c
      ensures c in order <==> c in order[..n] || c == order[n]
    {
      if c in order {
        var k :| 0 <= k < |order| && order[k] == c;
        if k < n {
          assert order[..n][k] == c;
        }
      }
    }
  }

  /** Serving `order`: each subscriber's room and batch hold what it maps
      to in `ServedOf`, and nobody else's changed. */
  lemma {:induction false} ReachedAll(f0: Feed, cache0: map<string, Dict>, order: seq<string>,
                                      caps: map<string, Capabilities>, config: BatchConfig, symbol: string,
                                      data: Dict, forceFullUpdate: bool, failing: set<string>, sizes: Sizes,
                                      nowIso: string)
    requires WellFormed(data) && Distinct(order)
    ensures var f := PushAll(f0, cache0, order, caps, config, symbol, data, forceFullUpdate, failing, sizes, nowIso);
      ReachedSoFar(f.pending, f.outbox, f0.pending, f0.outbox,
                   ServedOf(f0, cache0, order, caps, config, symbol, data, forceFullUpdate, failing, sizes, nowIso))
    decreases |order|
  {
    if |order| == 0 {
      assert f0.outbox[|f0.outbox|..] == [];
      assert f0.outbox[..|f0.outbox|] == f0.outbox;
    } else {
      var n := |order| - 1;
      var client := order[n];
      DistinctPrefix(order, n);
      ReachedAll(f0, cache0, order[..n], caps, config, symbol, data, forceFullUpdate, failing, sizes, nowIso);
      var prior := ServedOf(f0, cache0, order[..n], caps, config, symbol, data, forceFullUpdate, failing, sizes, nowIso);
      ServedKeys(f0, cache0, order[..n], caps, config, symbol, data, forceFullUpdate, failing, sizes, nowIso);
      var f := PushAll(f0, cache0, order[..n], caps, config, symbol, data, forceFullUpdate, failing, sizes, nowIso);
      var cache := SharedBaseline(cache0, symbol, data, n);
      var g := Step(f, cache, caps, config, client, symbol, data, forceFullUpdate, failing, sizes, nowIso);
      var t := Turn(f, cache, caps, config, client, symbol, data, forceFullUpdate, failing, sizes, nowIso);
      StepOwn(f, cache, caps, config, client, symbol, data, forceFullUpdate, failing, sizes, nowIso);
      ReachedGrow(f.pending, g.pending, f.outbox, t, f0.pending, f0.outbox, prior, client);
      ServedOfSnoc(f0, cache0, order, caps, config, symbol, data, forceFullUpdate, failing, sizes, nowIso);
    }
  }

  /** A prefix of a sequence without repeats has none either; the
      element after it is not in it. */
  lemma DistinctPrefix(order: seq<string>, n: nat)
    requires Distinct(order) && n < |order|
    ensures Distinct(order[..n]) && order[n] !in order[..n]
  {
    forall i, j | 0 <= i < j < n
      ensures order[..n][i] != order[..n][j]
    {
      assert order[..n][i] == order[i] && order[..n][j] == order[j];
    }
  }

  /** Serving `order`: each subscriber got what `Pushed` allows, and the
      baseline is the one `GotFrom` expects. */
  lemma {:induction false} GotAll(f0: Feed, cache0: map<string, Dict>, order: seq<string>,
                                  caps: map<string, Capabilities>, config: BatchConfig, symbol: string,
                                  data: Dict, forceFullUpdate: bool, failing: set<string>, sizes: Sizes,
                                  nowIso: string)
    requires WellFormed(data) && Distinct(order)
    ensures GotFrom(ServedOf(f0, cache0, order, caps, config, symbol, data, forceFullUpdate, failing, sizes, nowIso),
                    SharedBaseline(cache0, symbol, data, |order|), cache0, f0.pending, caps, config,
                    symbol, data, forceFullUpdate, failing, sizes, nowIso)
    decreases |order|
  {
    if |order| > 0 {
      var n := |order| - 1;
      var client := order[n];
      DistinctPrefix(order, n);
      ReachedAll(f0, cache0, order[..n], caps, config, symbol, data, forceFullUpdate, failing, sizes, nowIso);
      ServedKeys(f0, cache0, order[..n], caps, config, symbol, data, forceFullUpdate, failing, sizes, nowIso);
      var prior := ServedOf(f0, cache0, order[..n], caps, config, symbol, data, forceFullUpdate, failing, sizes, nowIso);
      var cache := SharedBaseline(cache0, symbol, data, n);
      var f := PushAll(f0, cache0, order[..n], caps, config, symbol, data, forceFullUpdate, failing, sizes, nowIso);
      var t := Turn(f, cache, caps, config, client, symbol, data, forceFullUpdate, failing, sizes, nowIso);
      assert PendingOf(f.pending, client) == PendingOf(f0.pending, client);
      TurnPushed(f, cache, cache0, caps, config, client, symbol, data, forceFullUpdate, failing, sizes, nowIso);
      GotAll(f0, cache0, order[..n], caps, config, symbol, data, forceFullUpdate, failing, sizes, nowIso);
      GotGrow(prior, cache, cache0, f0.pending, caps, config, client, t, symbol, data, forceFullUpdate, failing, sizes, nowIso);
      BaselineAfter(cache, cache0, symbol, data);
    }
  }

  /** What `send_optimized_stock_update` promises, about the deliveries
      serving `order` makes: only the targets are sent anything or have
      their batch changed, each gets what `Pushed` allows, and the
      baseline of `symbol` is `data` when there was any target. */
  lemma PushedAllFrom(f0: Feed, cache0: map<string, Dict>, order: seq<string>, targets: set<string>,
                      caps: map<string, Capabilities>, config: BatchConfig, symbol: string, data: Dict,
                      forceFullUpdate: bool, failing: set<string>, sizes: Sizes, nowIso: string)
    requires WellFormed(data) && Distinct(order) && Members(order) == targets
    ensures var f := PushAll(f0, cache0, order, caps, config, symbol, data, forceFullUpdate, failing, sizes, nowIso);
      && Extends(f0.outbox, f.outbox, targets)
      && SharedBaseline(cache0, symbol, data, |order|) == (if targets == {} then cache0 else cache0[symbol := data])
      && (forall c :: c !in targets ==>
            ToRoom(f.outbox[|f0.outbox|..], c) == [] && PendingOf(f.pending, c) == PendingOf(f0.pending, c))
      && (forall c :: c in targets ==>
            Pushed(ToRoom(f.outbox[|f0.outbox|..], c), PendingOf(f.pending, c), PendingOf(f0.pending, c),
                   caps, config, c, cache0, symbol, data, forceFullUpdate, failing, sizes, nowIso))
  {
    var f := PushAll(f0, cache0, order, caps, config, symbol, data, forceFullUpdate, failing, sizes, nowIso);
    var served := ServedOf(f0, cache0, order, caps, config, symbol, data, forceFullUpdate, failing, sizes, nowIso);
    ReachedAll(f0, cache0, order, caps, config, symbol, data, forceFullUpdate, failing, sizes, nowIso);
    ServedKeys(f0, cache0, order, caps, config, symbol, data, forceFullUpdate, failing, sizes, nowIso);
    GotAll(f0, cache0, order, caps, config, symbol, data, forceFullUpdate, failing, sizes, nowIso);
    PushedAll(f.pending, f.outbox, f0.pending, f0.outbox, served, SharedBaseline(cache0, symbol, data, |order|),
              cache0, caps, config, symbol, data, forceFullUpdate, failing, sizes, nowIso);
    if |order| > 0 {
      assert order[0] in targets;
    }
  }

  /** Once every target was served, each got what `Pushed` allows. */
  lemma PushedAll(pending: map<string, seq<Dict>>, outbox: seq<Emission<Payload>>,
                  pending0: map<string, seq<Dict>>, out0: seq<Emission<Payload>>, served: map<string, Outcome>,
                  cache: map<string, Dict>, cache0: map<string, Dict>, caps: map<string, Capabilities>, config: BatchConfig,
                  symbol: string, data: Dict, forceFullUpdate: bool, failing: set<string>, sizes: Sizes, nowIso: string)
    requires WellFormed(data)
    requires ReachedSoFar(pending, outbox, pending0, out0, served)
    requires GotFrom(served, cache, cache0, pending0, caps, config, symbol, data, forceFullUpdate, failing, sizes, nowIso)
    ensures forall c :: c in served ==>
      Pushed(ToRoom(outbox[|out0|..], c), PendingOf(pending, c), PendingOf(pending0, c), caps, config, c,
             cache0, symbol, data, forceFullUpdate, failing, sizes, nowIso)
  {
  }

  /** Part way through `flush_all_batches`: the batches of the clients in
      `done` are empty and their messages sent, the others untouched. */
  ghost predicate FlushedSoFar(pending: map<string, seq<Dict>>, outbox: seq<Emission<Payload>>,
                               out0: seq<Emission<Payload>>, pending0: map<string, seq<Dict>>, done: set<string>,
                               caps: map<string, Capabilities>, config: BatchConfig, failing: set<string>, nowIso: string)
  {
    && PendingFlushed(pending, pending0, done)
    && Extends(out0, outbox, pending0.Keys)
    && RoomsFlushed(outbox[|out0|..], pending0, done, caps, config, failing, nowIso)
  }

  /** The batches of the clients in `done` were emptied, the others are
      untouched. */
  ghost predicate PendingFlushed(pending: map<string, seq<Dict>>, pending0: map<string, seq<Dict>>, done: set<string>)
  {
    && pending.Keys == pending0.Keys && done <= pending0.Keys
    && (forall c :: c in done ==> pending[c] == [])
    && (forall c :: c in pending0.Keys - done ==> pending[c] == pending0[c])
  }

  /** In `sent`, the clients in `done` received their flushed batch, the
      others nothing. */
  ghost predicate RoomsFlushed(sent: seq<Emission<Payload>>, pending0: map<string, seq<Dict>>, done: set<string>,
                               caps: map<string, Capabilities>, config: BatchConfig, failing: set<string>, nowIso: string)
  {
    forall c :: ToRoom(sent, c) == if c in done then FlushMessages(PendingOf(pending0, c), caps, config, c, failing, nowIso) else []
  }

  /** Once every client was flushed, every batch is empty and each client
      was sent its whole batch. */
  lemma FlushedAll(pending: map<string, seq<Dict>>, outbox: seq<Emission<Payload>>, out0: seq<Emission<Payload>>,
                   pending0: map<string, seq<Dict>>, done: set<string>,
                   caps: map<string, Capabilities>, config: BatchConfig, failing: set<string>, nowIso: string)
    requires FlushedSoFar(pending, outbox, out0, pending0, done, caps, config, failing, nowIso)
    requires done == pending0.Keys
    ensures pending.Keys == pending0.Keys
    ensures forall c :: c in pending ==> pending[c] == []
    ensures BatchesBelow(pending, config.maxBatchSize)
    ensures Extends(out0, outbox, pending0.Keys)
    ensures forall c :: ToRoom(outbox[|out0|..], c) == FlushMessages(PendingOf(pending0, c), caps, config, c, failing, nowIso)
  {
    forall c
      ensures ToRoom(outbox[|out0|..], c) == FlushMessages(PendingOf(pending0, c), caps, config, c, failing, nowIso)
    {
      if c !in done {
        assert PendingOf(pending0, c) == [];
      }
    }
  }

  /** Flushing one more client keeps `FlushedSoFar`. */
  lemma FlushedGrow(pending: map<string, seq<Dict>>, pending': map<string, seq<Dict>>, outbox: seq<Emission<Payload>>,
                    out0: seq<Emission<Payload>>, pending0: map<string, seq<Dict>>, done: set<string>, client: string,
                    ms: seq<Emission<Payload>>,
                    caps: map<string, Capabilities>, config: BatchConfig, failing: set<string>, nowIso: string)
    requires FlushedSoFar(pending, outbox, out0, pending0, done, caps, config, failing, nowIso)
    requires client in pending0.Keys - done
    requires pending' == if PendingOf(pending, client) == [] then pending else pending[client := []]
    requires ms == FlushMessages(PendingOf(pending0, client), caps, config, client, failing, nowIso)
    ensures FlushedSoFar(pending', outbox + ms, out0, pending0, done + {client}, caps, config, failing, nowIso)
  {
    PendingGrow(pending, pending', pending0, done, client);
    ExtendsWithin(out0, outbox, ms, pending0.Keys, client);
    SliceAppend(outbox, ms, |out0|);
    RoomsGrow(outbox[|out0|..], ms, pending0, done, client, caps, config, failing, nowIso);
  }

  /** Emptying one more client's batch keeps the pending half of
      `FlushedSoFar`. */
  lemma PendingGrow(pending: map<string, seq<Dict>>, pending': map<string, seq<Dict>>, pending0: map<string, seq<Dict>>,
                    done: set<string>, client: string)
    requires PendingFlushed(pending, pending0, done) && client in pending0
    requires pending' == if PendingOf(pending, client) == [] then pending else pending[client := []]
    ensures PendingFlushed(pending', pending0, done + {client})
  {
  }

  /** Slicing off a prefix commutes with appending. */
  lemma SliceAppend<T>(s: seq<T>, t: seq<T>, k: nat)
    requires k <= |s|
    ensures (s + t)[k..] == s[k..] + t
  {
  }

  /** Appending the flush of one more client adds its messages to its own
      room and to no other. */
  lemma RoomsGrow(sent: seq<Emission<Payload>>, ms: seq<Emission<Payload>>, pending0: map<string, seq<Dict>>,
                  done: set<string>, client: string,
                  caps: map<string, Capabilities>, config: BatchConfig, failing: set<string>, nowIso: string)
    requires RoomsFlushed(sent, pending0, done, caps, config, failing, nowIso)
    requires client !in done
    requires ms == FlushMessages(PendingOf(pending0, client), caps, config, client, failing, nowIso)
    ensures RoomsFlushed(sent + ms, pending0, done + {client}, caps, config, failing, nowIso)
  {
    forall c
      ensures ToRoom(sent + ms, c)
        == if c in done + {client} then FlushMessages(PendingOf(pending0, c), caps, config, c, failing, nowIso) else []
    {
      ToRoomConcat(sent, ms, c);
      ToRoomOwn(ms, client, c);
    }
  }

  // ---------------------------------------------------------------------
  // The service
  // ---------------------------------------------------------------------

  datatype CapabilityCounts = CapabilityCounts(
    totalClients: nat, compressionEnabled: nat, deltaEnabled: nat, batchEnabled: nat)

  /** `get_optimization_stats()`. */
  datatype OptimizationStats = OptimizationStats(
    compression: CompressionStats,
    websocket: WebSockets.ConnectionStats,
    clientCapabilities: CapabilityCounts,
    pendingBatches: map<string, nat>,
    batchConfig: BatchConfig)

  /** `supports_compression` of a client's capabilities. */
  function CompressionFlag(c: Capabilities): Value { c.supportsCompression }

  /** `supports_delta_updates` of a client's capabilities. */
  function DeltaFlag(c: Capabilities): Value { c.supportsDeltaUpdates }

  /** `supports_batch_updates` of a client's capabilities. */
  function BatchFlag(c: Capabilities): Value { c.supportsBatchUpdates }

  /** The number of clients whose capability selected by `flag` is truthy:
      every client exactly when each one's flag is set, none exactly when
      no one's is. */
  function CountEnabled(caps: map<string, Capabilities>, flag: Capabilities -> Value): (n: nat)
    ensures n == |set c | c in caps && Truthy(flag(caps[c]))|
    ensures n <= |caps|
    ensures n == |caps| <==> forall c :: c in caps ==> Truthy(flag(caps[c]))
    ensures n == 0 <==> forall c :: c in caps ==> !Truthy(flag(caps[c]))
  {
    var enabled := set c | c in caps && Truthy(flag(caps[c]));
    EnabledSize(caps, flag, enabled);
    |enabled|
  }

  lemma EnabledSize(caps: map<string, Capabilities>, flag: Capabilities -> Value, enabled: set<string>)
    requires enabled == set c | c in caps && Truthy(flag(caps[c]))
    ensures |enabled| <= |caps|
    ensures |enabled| == |caps| <==> forall c :: c in caps ==> Truthy(flag(caps[c]))
    ensures |enabled| == 0 <==> forall c :: c in caps ==> !Truthy(flag(caps[c]))
  {
    SubsetSize(enabled, caps.Keys);
    if c :| c in caps && !Truthy(flag(caps[c])) {
      SubsetSize(enabled, caps.Keys - {c});
    } else {
      assert enabled == caps.Keys;
    }
    if c :| c in caps && Truthy(flag(caps[c])) {
      assert c in enabled;
    }
  }

  /** A new client adds one to the count exactly when its flag is set:
      the count is `sum(1 for caps in ... if caps.get(flag))`. */
  lemma CountEnabledStep(caps: map<string, Capabilities>, flag: Capabilities -> Value, c: string, x: Capabilities)
    requires c !in caps
    ensures CountEnabled(caps[c := x], flag) == CountEnabled(caps, flag) + (if Truthy(flag(x)) then 1 else 0)
  {
    var caps' := caps[c := x];
    var before := set d | d in caps && Truthy(flag(caps[d]));
    var after := set d | d in caps' && Truthy(flag(caps'[d]));
    if Truthy(flag(x)) {
      assert after == before + {c};
    } else {
      assert after == before;
    }
  }

  lemma SubsetSize(a: set<string>, b: set<string>)
    requires a <= b
    ensures |a| <= |b|
  {
    assert b == a + (b - a);
  }

  class OptimizedWebSocketService {
    /** The compressor, shared by every client: one delta baseline per
        symbol. */
    const compression: CompressionService
    const manager: WebSockets.WebSocketManager
    var clientCapabilities: map<string, Capabilities>
    var batchConfig: BatchConfig
    /** client -> update dicts waiting to be sent as one batch */
    var pendingBatches: map<string, seq<Dict>>
    /** What the socket was asked to send, in order. */
    var outbox: seq<Emission<Payload>>

    ghost predicate Valid()
      reads this, compression
    {
      compression.Valid()
    }

    /** The pending batches and the outbox. */
    ghost function Snapshot(): Feed
      reads this
    {
      Feed(pendingBatches, outbox)
    }

    /** The batches are below the flush size. */
    ghost predicate BatchesBelowMax()
      reads this
    {
      BatchesBelow(pendingBatches, batchConfig.maxBatchSize)
    }

    constructor(compression: CompressionService, manager: WebSockets.WebSocketManager)
      requires compression.Valid()
      ensures Valid() && BatchesBelowMax()
      ensures this.compression == compression && this.manager == manager
      ensures clientCapabilities == map[] && batchConfig == DefaultBatchConfig
      ensures pendingBatches == map[] && outbox == []
    {
      this.compression := compression;
      this.manager := manager;
      clientCapabilities := map[];
      batchConfig := DefaultBatchConfig;
      pendingBatches := map[];
      outbox := [];
    }

    /** `handle_client_capabilities_direct`: the negotiated capabilities
        replace the client's previous ones. */
    method NegotiateCapabilities(client: string, data: Dict) returns (caps: Capabilities)
      modifies this
      ensures caps == Negotiate(data)
      ensures clientCapabilities == old(clientCapabilities)[client := caps]
      ensures batchConfig == old(batchConfig) && pendingBatches == old(pendingBatches) && outbox == old(outbox)
    {
      caps := Negotiate(data);
      clientCapabilities := clientCapabilities[client := caps];
    }

    /** The `client_capabilities` handler: negotiates, then tells the
        client what the server supports. */
    method HandleClientCapabilities(client: string, data: Dict)
      modifies this
      ensures clientCapabilities == old(clientCapabilities)[client := Negotiate(data)]
      ensures outbox == old(outbox) + [Emission("server_capabilities", client, ServerCapabilities(batchConfig.maxBatchSize))]
      ensures batchConfig == old(batchConfig) && pendingBatches == old(pendingBatches)
    {
      var _ := NegotiateCapabilities(client, data);
      outbox := outbox + [Emission("server_capabilities", client, ServerCapabilities(batchConfig.maxBatchSize))];
    }

    /** `handle_compression_stats_request_direct`: the compressor's
        statistics, also sent to every client. */
    method HandleCompressionStatsRequest() returns (stats: CompressionStats)
      requires Valid()
      modifies this
      ensures stats == compression.GetCompressionStats()
      ensures outbox == old(outbox) + [Emission("compression_stats", Everyone, StatsReport(stats))]
      ensures clientCapabilities == old(clientCapabilities) && batchConfig == old(batchConfig)
      ensures pendingBatches == old(pendingBatches)
    {
      stats := compression.GetCompressionStats();
      outbox := outbox + [Emission("compression_stats", Everyone, StatsReport(stats))];
    }

    /** `_send_single_update`: the update is sent compressed exactly when
        `ShouldCompress` holds, plain otherwise; a failing send is
        dropped. */
    method SendSingleUpdate(client: string, data: Dict, useCompression: bool, nowIso: string,
                            failing: set<string>, sizes: Sizes)
      requires Valid() && WellFormed(data)
      modifies this, compression
      ensures Valid()
      ensures outbox == Emit(old(outbox), failing, "optimized_update", client,
        SinglePayload(data, ShouldCompress(useCompression, old(batchConfig), sizes.messageSize(data)), nowIso))
      ensures compression.previousDataCache == old(compression.previousDataCache)
      ensures compression.fullUpdates == old(compression.fullUpdates)
      ensures compression.Counts() == SingleCounts(old(compression.Counts()), data, useCompression, old(batchConfig), sizes)
      ensures Extends(old(outbox), outbox, {client})
      ensures clientCapabilities == old(clientCapabilities) && batchConfig == old(batchConfig)
      ensures pendingBatches == old(pendingBatches)
    {
      var message := SingleUpdate(data, nowIso);
      if ShouldCompress(useCompression, batchConfig, sizes.messageSize(data)) {
        var blob := compression.CompressStockData(data, false, sizes.jsonSize(data), sizes.packedSize(data));
        message := CompressedSingle(data, nowIso);
        assert Wire(message) == Some(blob);
      }
      outbox := Emit(outbox, failing, "optimized_update", client, message);
    }

    /** `_flush_batch`: nothing happens for an absent or empty batch;
        otherwise the batch is emptied and sent as one message counting
        its updates, compressed when the client supports compression and
        compression is enabled. A failing send loses the batch. */
    method FlushBatch(client: string, nowIso: string, failing: set<string>, sizes: Sizes)
      requires Valid()
      modifies this, compression
      ensures Valid()
      ensures pendingBatches ==
        if PendingOf(old(pendingBatches), client) == [] then old(pendingBatches) else old(pendingBatches)[client := []]
      ensures PendingOf(pendingBatches, client) == []
      ensures forall c :: c != client ==> PendingOf(pendingBatches, c) == PendingOf(old(pendingBatches), c)
      ensures old(BatchesBelowMax()) ==> BatchesBelowMax()
      ensures outbox == old(outbox) + FlushMessages(PendingOf(old(pendingBatches), client), clientCapabilities, batchConfig,
                                                    client, failing, nowIso)
      ensures compression.previousDataCache == old(compression.previousDataCache)
      ensures compression.fullUpdates == old(compression.fullUpdates)
      ensures compression.Counts() == FlushCounts(old(compression.Counts()), PendingOf(old(pendingBatches), client),
                                                  clientCapabilities, batchConfig, client, nowIso, sizes)
      ensures clientCapabilities == old(clientCapabilities) && batchConfig == old(batchConfig)
    {
      if client !in pendingBatches || pendingBatches[client] == [] {
        return;
      }
      var batch := pendingBatches[client];
      pendingBatches := pendingBatches[client := []];
      var message := BatchUpdate(batch, |batch|, nowIso);
      if SupportsCompression(clientCapabilities, client) && batchConfig.enableCompression {
        var envelope := BatchEnvelope(batch, nowIso);
        var blob := compression.CompressBatchUpdates(batch, nowIso, sizes.jsonSize(envelope), sizes.packedSize(envelope));
        message := CompressedBatch(batch, |batch|, nowIso);
        assert Wire(message) == Some(blob);
      }
      outbox := Emit(outbox, failing, "batch_update", client, message);
    }

    /** `_add_to_batch`: the update joins the client's batch, which is
        flushed once it reaches `max_batch_size`. */
    method AddToBatch(client: string, update: Dict, nowIso: string, failing: set<string>, sizes: Sizes)
      requires Valid()
      modifies this, compression
      ensures Valid()
      ensures old(BatchesBelowMax()) ==> BatchesBelowMax()
      ensures var batch := PendingOf(old(pendingBatches), client) + [update];
        && (|batch| < batchConfig.maxBatchSize ==>
              pendingBatches == old(pendingBatches)[client := batch] && outbox == old(outbox))
        && (|batch| >= batchConfig.maxBatchSize ==>
              && pendingBatches == old(pendingBatches)[client := []]
              && outbox == Emit(old(outbox), failing, "batch_update", client,
                   BatchPayload(batch, SupportsCompression(clientCapabilities, client) && batchConfig.enableCompression, nowIso)))
      ensures compression.previousDataCache == old(compression.previousDataCache)
      ensures compression.fullUpdates == old(compression.fullUpdates)
      ensures var batch := PendingOf(old(pendingBatches), client) + [update];
        compression.Counts() ==
          if |batch| >= batchConfig.maxBatchSize
          then FlushCounts(old(compression.Counts()), batch, clientCapabilities, batchConfig, client, nowIso, sizes)
          else old(compression.Counts())
      ensures Extends(old(outbox), outbox, {client})
      ensures clientCapabilities == old(clientCapabilities) && batchConfig == old(batchConfig)
    {
      var batch := PendingOf(pendingBatches, client) + [update];
      pendingBatches := pendingBatches[client := batch];
      if |batch| >= batchConfig.maxBatchSize {
        FlushBatch(client, nowIso, failing, sizes);
      }
    }

    /** `_send_update_to_client`: a delta exactly when the client supports
        deltas and no full update is forced, a full update otherwise, built
        against the symbol's shared baseline; then batched when the client
        supports batching, sent on its own otherwise. Either way the
        baseline becomes `data`. */
    method SendUpdateToClient(client: string, symbol: string, data: Dict, forceFullUpdate: bool,
                              nowIso: string, failing: set<string>, sizes: Sizes)
      requires Valid() && WellFormed(data)
      modifies this, compression
      ensures Valid()
      ensures old(BatchesBelowMax()) ==> BatchesBelowMax()
      ensures compression.previousDataCache == old(compression.previousDataCache)[symbol := data]
      ensures compression.fullUpdates ==
        old(compression.fullUpdates) + (if SupportsDelta(clientCapabilities, client) && !forceFullUpdate then 0 else 1)
      ensures var delta := SupportsDelta(clientCapabilities, client) && !forceFullUpdate;
        compression.Counts() ==
          ServedCounts(Encoding(old(compression.Counts()),
                                UpdateFrom(Baseline(old(compression.previousDataCache), symbol), symbol, data, delta, nowIso)),
                       PendingOf(old(pendingBatches), client), clientCapabilities, batchConfig, client,
                       StockDict(old(compression.previousDataCache), symbol, data, delta, nowIso), sizes, nowIso)
      ensures var d := StockDict(old(compression.previousDataCache), symbol, data,
                                 SupportsDelta(clientCapabilities, client) && !forceFullUpdate, nowIso);
        && outbox == old(outbox) + ServedMessages(PendingOf(old(pendingBatches), client), clientCapabilities, batchConfig,
                                                  client, d, failing, sizes, nowIso)
        && pendingBatches == if SupportsBatch(clientCapabilities, client)
             then old(pendingBatches)[client := ServedBatch(PendingOf(old(pendingBatches), client), clientCapabilities,
                                                            batchConfig, client, d)]
             else old(pendingBatches)
      ensures clientCapabilities == old(clientCapabilities) && batchConfig == old(batchConfig)
    {
      var d := Encode(symbol, data, SupportsDelta(clientCapabilities, client) && !forceFullUpdate, nowIso);
      Deliver(client, d, nowIso, failing, sizes);
    }

    /** The delivery step of `_send_update_to_client`: the dict joins the
        client's batch when it supports batching and is sent on its own
        otherwise. */
    method Deliver(client: string, d: Dict, nowIso: string, failing: set<string>, sizes: Sizes)
      requires Valid() && WellFormed(d)
      modifies this, compression
      ensures Valid()
      ensures old(BatchesBelowMax()) ==> BatchesBelowMax()
      ensures compression.previousDataCache == old(compression.previousDataCache)
      ensures compression.fullUpdates == old(compression.fullUpdates)
      ensures compression.Counts() == ServedCounts(old(compression.Counts()), PendingOf(old(pendingBatches), client),
                                                   clientCapabilities, batchConfig, client, d, sizes, nowIso)
      ensures outbox == old(outbox) + ServedMessages(PendingOf(old(pendingBatches), client), clientCapabilities, batchConfig,
                                                     client, d, failing, sizes, nowIso)
      ensures pendingBatches == if SupportsBatch(clientCapabilities, client)
        then old(pendingBatches)[client := ServedBatch(PendingOf(old(pendingBatches), client), clientCapabilities,
                                                       batchConfig, client, d)]
        else old(pendingBatches)
      ensures clientCapabilities == old(clientCapabilities) && batchConfig == old(batchConfig)
    {
      if SupportsBatch(clientCapabilities, client) {
        AddToBatch(client, d, nowIso, failing, sizes);
      } else {
        SendSingleUpdate(client, d, SupportsCompression(clientCapabilities, client), nowIso, failing, sizes);
      }
    }

    /** The encoding step of `_send_update_to_client` and of the batching
        loop of `_send_bulk_updates_to_client`: `create_delta_update` when
        `delta`, `create_full_update` otherwise, as a dict. */
    method Encode(symbol: string, data: Dict, delta: bool, nowIso: string) returns (d: Dict)
      requires Valid() && WellFormed(data)
      modifies compression
      ensures Valid()
      ensures d == StockDict(old(compression.previousDataCache), symbol, data, delta, nowIso)
      ensures compression.previousDataCache == old(compression.previousDataCache)[symbol := data]
      ensures compression.fullUpdates == old(compression.fullUpdates) + (if delta then 0 else 1)
      ensures compression.Counts() ==
        Encoding(old(compression.Counts()), UpdateFrom(Baseline(old(compression.previousDataCache), symbol), symbol, data, delta, nowIso))
    {
      var update: Update;
      if delta {
        update := compression.CreateDeltaUpdate(symbol, data, nowIso);
      } else {
        update := compression.CreateFullUpdate(symbol, data, nowIso);
      }
      d := UpdateDict(update);
    }

    /** `send_optimized_stock_update`: every connected subscriber of the
        symbol is served the update by `SendUpdateToClient`, a failure for
        one client not stopping the others; nobody else is sent anything
        and no other batch changes. The subscribers share the symbol's
        baseline, so the first one served is sent the update against the
        old baseline and the others against `data` itself; which one is
        first depends on the set's iteration order, so each client is
        stated to have been served against one of the two. */
    method SendOptimizedStockUpdate(symbol: string, data: Dict, forceFullUpdate: bool,
                                    nowIso: string, failing: set<string>, sizes: Sizes)
      requires Valid() && WellFormed(data)
      modifies this, compression
      ensures Valid()
      ensures old(BatchesBelowMax()) ==> BatchesBelowMax()
      ensures clientCapabilities == old(clientCapabilities) && batchConfig == old(batchConfig)
      ensures var targets := SubscribersOf(manager.symbolSubscribers, symbol) * manager.connectedClients;
        && Extends(old(outbox), outbox, targets)
        && compression.previousDataCache ==
             (if targets == {} then old(compression.previousDataCache)
              else old(compression.previousDataCache)[symbol := data])
        && (forall c :: c !in targets ==>
              ToRoom(outbox[|old(outbox)|..], c) == [] && PendingOf(pendingBatches, c) == PendingOf(old(pendingBatches), c))
        && (forall c :: c in targets ==>
              Pushed(ToRoom(outbox[|old(outbox)|..], c), PendingOf(pendingBatches, c), PendingOf(old(pendingBatches), c),
                     clientCapabilities, batchConfig, c, old(compression.previousDataCache), symbol, data,
                     forceFullUpdate, failing, sizes, nowIso))
    {
      ghost var targets := SubscribersOf(manager.symbolSubscribers, symbol) * manager.connectedClients;
      if symbol !in manager.symbolSubscribers {
        assert outbox[|old(outbox)|..] == [];
        return;
      }
      var subscribers := manager.symbolSubscribers[symbol];
      ghost var f0 := Snapshot();
      ghost var cache0 := compression.previousDataCache;
      ghost var order := PushToSubscribers(subscribers, symbol, data, forceFullUpdate, nowIso, failing, sizes, cache0, f0);
      PushedAllFrom(f0, cache0, order, targets, clientCapabilities, batchConfig, symbol, data, forceFullUpdate,
                    failing, sizes, nowIso);
    }

    /** The loop of `send_optimized_stock_update`: the connected clients
        among `subscribers` are served one after the other, in an order
        the set's iteration picks; `order` records it. */
    method PushToSubscribers(subscribers: set<string>, symbol: string, data: Dict, forceFullUpdate: bool,
                             nowIso: string, failing: set<string>, sizes: Sizes,
                             ghost cache0: map<string, Dict>, ghost f0: Feed)
      returns (ghost order: seq<string>)
      requires Valid() && WellFormed(data)
      requires cache0 == compression.previousDataCache && f0 == Snapshot()
      modifies this, compression
      ensures Valid()
      ensures old(BatchesBelowMax()) ==> BatchesBelowMax()
      ensures clientCapabilities == old(clientCapabilities) && batchConfig == old(batchConfig)
      ensures Distinct(order) && Members(order) == subscribers * manager.connectedClients
      ensures PushProgress(compression.previousDataCache, Snapshot(), cache0, f0, order, clientCapabilities,
                           batchConfig, symbol, data, forceFullUpdate, failing, sizes, nowIso)
    {
      ghost var wasBelow := BatchesBelowMax();
      var remaining := subscribers;
      ghost var done: set<string> := {};
      order := [];
      while remaining != {}
        invariant done == subscribers - remaining
        invariant Distinct(order) && Members(order) == done * manager.connectedClients
        invariant Valid()
        invariant wasBelow ==> BatchesBelowMax()
        invariant clientCapabilities == old(clientCapabilities) && batchConfig == old(batchConfig)
        invariant PushProgress(compression.previousDataCache, Snapshot(), cache0, f0, order, clientCapabilities,
                               batchConfig, symbol, data, forceFullUpdate, failing, sizes, nowIso)
        decreases remaining
      {
        var client :| client in remaining;
        if client in manager.connectedClients {
          Appended(order, client);
          PushNext(client, symbol, data, forceFullUpdate, nowIso, failing, sizes, cache0, f0, order);
          order := order + [client];
        }
        remaining := remaining - {client};
        done := done + {client};
      }
    }

    /** One subscriber's turn in `SendOptimizedStockUpdate`'s loop. */
    method PushNext(client: string, symbol: string, data: Dict, forceFullUpdate: bool,
                    nowIso: string, failing: set<string>, sizes: Sizes, ghost cache0: map<string, Dict>,
                    ghost f0: Feed, ghost order: seq<string>)
      requires Valid() && WellFormed(data)
      requires PushProgress(compression.previousDataCache, Snapshot(), cache0, f0, order, clientCapabilities,
                            batchConfig, symbol, data, forceFullUpdate, failing, sizes, nowIso)
      modifies this, compression
      ensures Valid()
      ensures old(BatchesBelowMax()) ==> BatchesBelowMax()
      ensures clientCapabilities == old(clientCapabilities) && batchConfig == old(batchConfig)
      ensures PushProgress(compression.previousDataCache, Snapshot(), cache0, f0, order + [client], clientCapabilities,
                           batchConfig, symbol, data, forceFullUpdate, failing, sizes, nowIso)
    {
      PushProgressStep(compression.previousDataCache, Snapshot(), cache0, f0, order, clientCapabilities, batchConfig,
                       client, symbol, data, forceFullUpdate, failing, sizes, nowIso);
      SendUpdateToClient(client, symbol, data, forceFullUpdate, nowIso, failing, sizes);
    }

    /** `_send_bulk_updates_to_client`: with batching, every update joins
        the client's batch and the batch is flushed when `autoFlush` is
        set; without, each update is sent on its own and a failing send
        abandons the rest. The dicts are built in order, each against the
        baselines the earlier ones left; only this client's batch changes
        and only this client is sent anything. */
    method SendBulkUpdatesToClient(client: string, updates: seq<StockUpdate>, autoFlush: bool,
                                   nowIso: string, failing: set<string>, sizes: Sizes)
      requires Valid() && forall i :: 0 <= i < |updates| ==> WellFormed(updates[i].data)
      modifies this, compression
      ensures Valid()
      ensures old(BatchesBelowMax()) ==> BatchesBelowMax()
      ensures clientCapabilities == old(clientCapabilities) && batchConfig == old(batchConfig)
      ensures var ds := BulkDicts(old(compression.previousDataCache), updates, SupportsDelta(clientCapabilities, client), nowIso);
        && outbox == old(outbox) + BulkMessages(PendingOf(old(pendingBatches), client), clientCapabilities, batchConfig,
                                                client, ds, autoFlush, failing, sizes, nowIso)
        && PendingOf(pendingBatches, client) ==
             BulkBatch(PendingOf(old(pendingBatches), client), clientCapabilities, batchConfig, client, ds, autoFlush)
      ensures forall c :: c != client ==> PendingOf(pendingBatches, c) == PendingOf(old(pendingBatches), c)
      ensures compression.previousDataCache == Baselines(old(compression.previousDataCache),
        Processed(updates, SupportsBatch(clientCapabilities, client) || client !in failing))
    {
      if SupportsBatch(clientCapabilities, client) {
        BatchAll(client, updates, autoFlush, nowIso, failing, sizes);
      } else {
        SendEach(client, updates, nowIso, failing, sizes);
      }
    }

    /** The batching branch of `_send_bulk_updates_to_client`: each dict is
        batched, then what is pending is flushed when asked to. */
    method BatchAll(client: string, updates: seq<StockUpdate>, autoFlush: bool,
                    nowIso: string, failing: set<string>, sizes: Sizes)
      requires Valid() && forall i :: 0 <= i < |updates| ==> WellFormed(updates[i].data)
      requires SupportsBatch(clientCapabilities, client)
      modifies this, compression
      ensures Valid()
      ensures old(BatchesBelowMax()) ==> BatchesBelowMax()
      ensures clientCapabilities == old(clientCapabilities) && batchConfig == old(batchConfig)
      ensures var ds := BulkDicts(old(compression.previousDataCache), updates, SupportsDelta(clientCapabilities, client), nowIso);
        var chunk := Chunk(PendingOf(old(pendingBatches), client), ds, batchConfig.maxBatchSize);
        && outbox == old(outbox) + BatchMessages(client,
             if autoFlush then SentWithFlush(PendingOf(old(pendingBatches), client), ds, batchConfig.maxBatchSize) else chunk.0,
             BatchCompress(clientCapabilities, batchConfig, client), failing, nowIso)
        && PendingOf(pendingBatches, client) == if autoFlush then [] else chunk.1
      ensures forall c :: c != client ==> PendingOf(pendingBatches, c) == PendingOf(old(pendingBatches), c)
      ensures compression.previousDataCache == Baselines(old(compression.previousDataCache), updates)
    {
      ghost var batch0 := PendingOf(pendingBatches, client);
      ghost var out0 := outbox;
      ghost var ds := BulkDicts(compression.previousDataCache, updates, SupportsDelta(clientCapabilities, client), nowIso);
      ghost var compress := BatchCompress(clientCapabilities, batchConfig, client);
      ghost var chunk := Chunk(batch0, ds, batchConfig.maxBatchSize);
      BatchEach(client, updates, nowIso, failing, sizes);
      if autoFlush {
        ghost var out1 := outbox;
        assert PendingOf(pendingBatches, client) == chunk.1;
        FlushBatch(client, nowIso, failing, sizes);
        FlushedAfter(out0, out1, outbox, batch0, ds, clientCapabilities, batchConfig, client, failing, nowIso);
      }
    }

    /** The batching branch of `_send_bulk_updates_to_client`: the dicts,
        deltas when the client supports deltas and full updates otherwise,
        are fed one at a time into the client's batch, which is sent each
        time it reaches the flush size; the baselines follow the updates in
        order. */
    method BatchEach(client: string, updates: seq<StockUpdate>, nowIso: string, failing: set<string>, sizes: Sizes)
      requires Valid() && forall i :: 0 <= i < |updates| ==> WellFormed(updates[i].data)
      requires SupportsBatch(clientCapabilities, client)
      modifies this, compression
      ensures Valid()
      ensures old(BatchesBelowMax()) ==> BatchesBelowMax()
      ensures clientCapabilities == old(clientCapabilities) && batchConfig == old(batchConfig)
      ensures var ds := BulkDicts(old(compression.previousDataCache), updates, SupportsDelta(clientCapabilities, client), nowIso);
        var chunk := Chunk(PendingOf(old(pendingBatches), client), ds, batchConfig.maxBatchSize);
        && outbox == old(outbox) + BatchMessages(client, chunk.0, BatchCompress(clientCapabilities, batchConfig, client), failing, nowIso)
        && PendingOf(pendingBatches, client) == chunk.1
        && pendingBatches == if |updates| == 0 then old(pendingBatches) else old(pendingBatches)[client := chunk.1]
      ensures forall c :: c != client ==> PendingOf(pendingBatches, c) == PendingOf(old(pendingBatches), c)
      ensures compression.previousDataCache == Baselines(old(compression.previousDataCache), updates)
    {
      ghost var wasBelow := BatchesBelowMax();
      ghost var f0 := Snapshot();
      ghost var cache0 := compression.previousDataCache;
      var i := 0;
      while i < |updates|
        invariant 0 <= i <= |updates|
        invariant Valid()
        invariant wasBelow ==> BatchesBelowMax()
        invariant clientCapabilities == old(clientCapabilities) && batchConfig == old(batchConfig)
        invariant Progress(compression.previousDataCache, Snapshot(), cache0, f0, clientCapabilities, batchConfig,
                           client, updates, i, failing, sizes, nowIso)
      {
        BatchNext(client, updates, i, nowIso, failing, sizes, cache0, f0);
        i := i + 1;
      }
      BatchedAll(compression.previousDataCache, Snapshot(), cache0, f0, clientCapabilities, batchConfig,
                 client, updates, failing, sizes, nowIso);
    }

    /** The `i`-th turn of `BatchEach`'s loop. */
    method BatchNext(client: string, updates: seq<StockUpdate>, i: nat, nowIso: string, failing: set<string>, sizes: Sizes,
                     ghost cache0: map<string, Dict>, ghost f0: Feed)
      requires Valid() && forall j :: 0 <= j < |updates| ==> WellFormed(updates[j].data)
      requires SupportsBatch(clientCapabilities, client) && i < |updates|
      requires Progress(compression.previousDataCache, Snapshot(), cache0, f0, clientCapabilities, batchConfig,
                        client, updates, i, failing, sizes, nowIso)
      modifies this, compression
      ensures Valid()
      ensures old(BatchesBelowMax()) ==> BatchesBelowMax()
      ensures clientCapabilities == old(clientCapabilities) && batchConfig == old(batchConfig)
      ensures Progress(compression.previousDataCache, Snapshot(), cache0, f0, clientCapabilities, batchConfig,
                       client, updates, i + 1, failing, sizes, nowIso)
    {
      ProgressStep(compression.previousDataCache, Snapshot(), cache0, f0, clientCapabilities, batchConfig,
                   client, updates, i, failing, sizes, nowIso);
      BatchOne(client, updates[i], nowIso, failing, sizes);
    }

    /** One update of the batching branch: a delta when the client
        supports deltas, a full update otherwise, added to the client's
        batch; the symbol's baseline becomes the update's data. */
    method BatchOne(client: string, u: StockUpdate, nowIso: string, failing: set<string>, sizes: Sizes)
      requires Valid() && WellFormed(u.data) && SupportsBatch(clientCapabilities, client)
      modifies this, compression
      ensures Valid()
      ensures old(BatchesBelowMax()) ==> BatchesBelowMax()
      ensures clientCapabilities == old(clientCapabilities) && batchConfig == old(batchConfig)
      ensures Snapshot() == Fed(old(Snapshot()), clientCapabilities, batchConfig, client,
        StockDict(old(compression.previousDataCache), u.symbol, u.data, SupportsDelta(clientCapabilities, client), nowIso),
        failing, sizes, nowIso)
      ensures compression.previousDataCache == old(compression.previousDataCache)[u.symbol := u.data]
    {
      var d := Encode(u.symbol, u.data, SupportsDelta(clientCapabilities, client), nowIso);
      AddToBatch(client, d, nowIso, failing, sizes);
    }

    /** The other branch of `_send_bulk_updates_to_client`: each update is
        sent by `SendUpdateToClient` without forcing a full update; the
        first failing send ends the loop, so the baselines follow the
        updates up to that one. */
    method SendEach(client: string, updates: seq<StockUpdate>, nowIso: string, failing: set<string>, sizes: Sizes)
      requires Valid() && forall i :: 0 <= i < |updates| ==> WellFormed(updates[i].data)
      requires !SupportsBatch(clientCapabilities, client)
      modifies this, compression
      ensures Valid()
      ensures clientCapabilities == old(clientCapabilities) && batchConfig == old(batchConfig)
      ensures outbox == old(outbox) + SingleMessages(clientCapabilities, batchConfig, client,
        BulkDicts(old(compression.previousDataCache), updates, SupportsDelta(clientCapabilities, client), nowIso),
        failing, sizes, nowIso)
      ensures pendingBatches == old(pendingBatches)
      ensures compression.previousDataCache ==
        Baselines(old(compression.previousDataCache), Processed(updates, client !in failing))
    {
      ghost var f0 := Snapshot();
      ghost var cache0 := compression.previousDataCache;
      var i := 0;
      while i < |updates|
        invariant 0 <= i <= |updates|
        invariant client in failing ==> i == 0
        invariant Valid()
        invariant clientCapabilities == old(clientCapabilities) && batchConfig == old(batchConfig)
        invariant Progress(compression.previousDataCache, Snapshot(), cache0, f0, clientCapabilities, batchConfig,
                           client, updates, i, failing, sizes, nowIso)
      {
        SendNext(client, updates, i, nowIso, failing, sizes, cache0, f0);
        i := i + 1;
        if client in failing {
          break;
        }
      }
      SentAll(compression.previousDataCache, Snapshot(), cache0, f0, clientCapabilities, batchConfig,
              client, updates, i, failing, sizes, nowIso);
    }

    /** The `i`-th turn of `SendEach`'s loop. */
    method SendNext(client: string, updates: seq<StockUpdate>, i: nat, nowIso: string, failing: set<string>, sizes: Sizes,
                    ghost cache0: map<string, Dict>, ghost f0: Feed)
      requires Valid() && forall j :: 0 <= j < |updates| ==> WellFormed(updates[j].data)
      requires !SupportsBatch(clientCapabilities, client) && i < |updates|
      requires Progress(compression.previousDataCache, Snapshot(), cache0, f0, clientCapabilities, batchConfig,
                        client, updates, i, failing, sizes, nowIso)
      modifies this, compression
      ensures Valid()
      ensures clientCapabilities == old(clientCapabilities) && batchConfig == old(batchConfig)
      ensures Progress(compression.previousDataCache, Snapshot(), cache0, f0, clientCapabilities, batchConfig,
                       client, updates, i + 1, failing, sizes, nowIso)
    {
      ProgressStep(compression.previousDataCache, Snapshot(), cache0, f0, clientCapabilities, batchConfig,
                   client, updates, i, failing, sizes, nowIso);
      SendUpdateToClient(client, updates[i].symbol, updates[i].data, false, nowIso, failing, sizes);
    }

    /** `flush_all_batches`: every pending batch is flushed, leaving all of
        them empty: each client with a non-empty batch is sent exactly that
        batch, once, and nobody else is sent anything. */
    method FlushAllBatches(nowIso: string, failing: set<string>, sizes: Sizes)
      requires Valid()
      modifies this, compression
      ensures Valid() && BatchesBelowMax()
      ensures pendingBatches.Keys == old(pendingBatches).Keys
      ensures forall c :: c in pendingBatches ==> pendingBatches[c] == []
      ensures Extends(old(outbox), outbox, old(pendingBatches).Keys)
      ensures forall c :: ToRoom(outbox[|old(outbox)|..], c)
                          == FlushMessages(PendingOf(old(pendingBatches), c), clientCapabilities, batchConfig, c, failing, nowIso)
      ensures compression.previousDataCache == old(compression.previousDataCache)
      ensures clientCapabilities == old(clientCapabilities) && batchConfig == old(batchConfig)
    {
      ghost var out0 := outbox;
      ghost var pending0 := pendingBatches;
      FlushEach(nowIso, failing, sizes);
      FlushedAll(pendingBatches, outbox, out0, pending0, pending0.Keys, clientCapabilities, batchConfig, failing, nowIso);
    }

    /** The loop of `flush_all_batches`: the clients with a batch are
        flushed one after the other. */
    method FlushEach(nowIso: string, failing: set<string>, sizes: Sizes)
      requires Valid()
      modifies this, compression
      ensures Valid()
      ensures FlushedSoFar(pendingBatches, outbox, old(outbox), old(pendingBatches), old(pendingBatches).Keys,
                           clientCapabilities, batchConfig, failing, nowIso)
      ensures compression.previousDataCache == old(compression.previousDataCache)
      ensures clientCapabilities == old(clientCapabilities) && batchConfig == old(batchConfig)
    {
      ghost var keys := pendingBatches.Keys;
      ghost var out0 := outbox;
      ghost var pending0 := pendingBatches;
      var remaining := pendingBatches.Keys;
      ghost var done: set<string> := {};
      assert outbox[|out0|..] == [] && outbox[..|out0|] == outbox;
      while remaining != {}
        invariant done == keys - remaining
        invariant Valid()
        invariant FlushedSoFar(pendingBatches, outbox, out0, pending0, done, clientCapabilities, batchConfig, failing, nowIso)
        invariant compression.previousDataCache == old(compression.previousDataCache)
        invariant clientCapabilities == old(clientCapabilities) && batchConfig == old(batchConfig)
        decreases remaining
      {
        var client :| client in remaining;
        FlushNext(client, nowIso, failing, sizes, out0, pending0, done);
        remaining := remaining - {client};
        done := done + {client};
      }
      assert done == pending0.Keys;
    }

    /** One round of `flush_all_batches`' loop: `client`'s batch is
        flushed and emptied. */
    method FlushNext(client: string, nowIso: string, failing: set<string>, sizes: Sizes,
                     ghost out0: seq<Emission<Payload>>, ghost pending0: map<string, seq<Dict>>, ghost done: set<string>)
      requires Valid() && client in pending0.Keys - done
      requires FlushedSoFar(pendingBatches, outbox, out0, pending0, done, clientCapabilities, batchConfig, failing, nowIso)
      modifies this, compression
      ensures Valid()
      ensures FlushedSoFar(pendingBatches, outbox, out0, pending0, done + {client}, clientCapabilities, batchConfig,
                           failing, nowIso)
      ensures compression.previousDataCache == old(compression.previousDataCache)
      ensures clientCapabilities == old(clientCapabilities) && batchConfig == old(batchConfig)
    {
      ghost var before := outbox;
      ghost var pendingBefore := pendingBatches;
      FlushBatch(client, nowIso, failing, sizes);
      ghost var ms := outbox[|before|..];
      assert outbox == before + ms;
      FlushedGrow(pendingBefore, pendingBatches, before, out0, pending0, done, client, ms, clientCapabilities, batchConfig, failing, nowIso);
    }

    /** `broadcast_optimized_updates`: each connected recipient is sent
        its own updates, in input order, by `SendBulkUpdatesToClient` with
        auto-flush; a failure for one client does not stop the others. A
        served client's room receives exactly what that bulk send sends,
        its dicts built against the baselines as they stood when its turn
        came (which depends on the grouping's order); afterwards a served
        client that batches has nothing pending; nobody else is sent
        anything and no other batch changes. */
    method BroadcastOptimizedUpdates(updates: seq<StockUpdate>, nowIso: string, failing: set<string>, sizes: Sizes)
      requires Valid() && forall i :: 0 <= i < |updates| ==> WellFormed(updates[i].data)
      modifies this, compression
      ensures Valid()
      ensures old(BatchesBelowMax()) ==> BatchesBelowMax()
      ensures clientCapabilities == old(clientCapabilities) && batchConfig == old(batchConfig)
      ensures var served := Recipients(updates, manager.symbolSubscribers) * manager.connectedClients;
        && Extends(old(outbox), outbox, served)
        && (forall c :: c !in served ==>
              ToRoom(outbox[|old(outbox)|..], c) == [] && PendingOf(pendingBatches, c) == PendingOf(old(pendingBatches), c))
        && (forall c :: c in served ==>
              PendingOf(pendingBatches, c) == Flushed(PendingOf(old(pendingBatches), c), clientCapabilities, c))
        && (forall c :: c in served ==>
              BulkSent(ToRoom(outbox[|old(outbox)|..], c), PendingOf(old(pendingBatches), c), clientCapabilities,
                       batchConfig, c, UpdatesFor(updates, manager.symbolSubscribers, c), failing, sizes, nowIso))
    {
      var groups, order := GroupByClient(updates, manager.symbolSubscribers);
      ghost var served := Recipients(updates, manager.symbolSubscribers) * manager.connectedClients;
      ghost var out0 := outbox;
      ghost var pending0 := pendingBatches;
      ghost var got := BroadcastGroups(groups, order, updates, nowIso, failing, sizes);
      BroadcastAll(pendingBatches, outbox, pending0, out0, got, served, clientCapabilities, batchConfig, updates,
                   manager.symbolSubscribers, failing, sizes, nowIso);
    }

    /** The loop of `broadcast_optimized_updates`: the connected clients
        of `order` are sent their groups one after the other; `got`
        records what each one's room received and the batch it was left
        with. */
    method BroadcastGroups(groups: map<string, seq<StockUpdate>>, order: seq<string>, ghost updates: seq<StockUpdate>,
                           nowIso: string, failing: set<string>, sizes: Sizes)
      returns (ghost got: map<string, Outcome>)
      requires Valid() && forall i :: 0 <= i < |updates| ==> WellFormed(updates[i].data)
      requires forall c :: c in groups ==> groups[c] == UpdatesFor(updates, manager.symbolSubscribers, c)
      requires Distinct(order) && forall c :: c in order ==> c in groups
      modifies this, compression
      ensures Valid()
      ensures old(BatchesBelowMax()) ==> BatchesBelowMax()
      ensures clientCapabilities == old(clientCapabilities) && batchConfig == old(batchConfig)
      ensures got.Keys == Members(order) * manager.connectedClients
      ensures ReachedSoFar(pendingBatches, outbox, old(pendingBatches), old(outbox), got)
      ensures BulkServed(got, old(pendingBatches), clientCapabilities, batchConfig, updates, manager.symbolSubscribers,
                         failing, sizes, nowIso)
    {
      ghost var wasBelow := BatchesBelowMax();
      ghost var out0 := outbox;
      ghost var pending0 := pendingBatches;
      got := map[];
      assert outbox[|out0|..] == [] && outbox[..|out0|] == outbox;
      var i := 0;
      while i < |order|
        invariant 0 <= i <= |order|
        invariant Valid()
        invariant wasBelow ==> BatchesBelowMax()
        invariant clientCapabilities == old(clientCapabilities) && batchConfig == old(batchConfig)
        invariant got.Keys == Members(order[..i]) * manager.connectedClients
        invariant ReachedSoFar(pendingBatches, outbox, pending0, out0, got)
        invariant BulkServed(got, pending0, clientCapabilities, batchConfig, updates, manager.symbolSubscribers,
                             failing, sizes, nowIso)
      {
        var client := order[i];
        DistinctPrefix(order, i);
        MembersNext(order, i);
        if client in manager.connectedClients {
          got := BroadcastNext(client, groups[client], updates, nowIso, failing, sizes, got, out0, pending0);
        }
        i := i + 1;
      }
      assert order[..i] == order;
    }

    /** One recipient's turn in `BroadcastOptimizedUpdates`' loop: its
        own updates are sent to it in bulk with auto-flush; `got` records
        what its room received and the batch it was left with. */
    method BroadcastNext(client: string, mine: seq<StockUpdate>, ghost updates: seq<StockUpdate>, nowIso: string,
                         failing: set<string>, sizes: Sizes, ghost got: map<string, Outcome>,
                         ghost out0: seq<Emission<Payload>>, ghost pending0: map<string, seq<Dict>>)
      returns (ghost got': map<string, Outcome>)
      requires Valid() && forall i :: 0 <= i < |updates| ==> WellFormed(updates[i].data)
      requires mine == UpdatesFor(updates, manager.symbolSubscribers, client) && client !in got
      requires ReachedSoFar(pendingBatches, outbox, pending0, out0, got)
      requires BulkServed(got, pending0, clientCapabilities, batchConfig, updates, manager.symbolSubscribers,
                          failing, sizes, nowIso)
      modifies this, compression
      ensures Valid()
      ensures old(BatchesBelowMax()) ==> BatchesBelowMax()
      ensures clientCapabilities == old(clientCapabilities) && batchConfig == old(batchConfig)
      ensures got'.Keys == got.Keys + {client}
      ensures ReachedSoFar(pendingBatches, outbox, pending0, out0, got')
      ensures BulkServed(got', pending0, clientCapabilities, batchConfig, updates, manager.symbolSubscribers,
                         failing, sizes, nowIso)
    {
      ghost var before := outbox;
      ghost var pendingBefore := pendingBatches;
      ghost var cache := compression.previousDataCache;
      SendBulkUpdatesToClient(client, mine, true, nowIso, failing, sizes);
      ghost var outcome: Outcome := (outbox[|before|..], PendingOf(pendingBatches, client));
      assert outbox == before + outcome.0;
      ReachedGrow(pendingBefore, pendingBatches, before, outcome, pending0, out0, got, client);
      BulkSentBy(cache, PendingOf(pending0, client), clientCapabilities, batchConfig, client, mine, failing, sizes, nowIso);
      BulkServedGrow(got, client, outcome, pending0, clientCapabilities, batchConfig, updates,
                     manager.symbolSubscribers, failing, sizes, nowIso);
      got' := got[client := outcome];
    }

    /** `get_optimization_stats`: the compressor's and the connection
        manager's statistics, the number of clients with each capability
        set, and each pending batch's length. */
    method GetOptimizationStats() returns (s: OptimizationStats)
      requires Valid()
      ensures s.compression == compression.GetCompressionStats()
      ensures s.clientCapabilities.totalClients == |clientCapabilities|
      ensures s.clientCapabilities.compressionEnabled == CountEnabled(clientCapabilities, CompressionFlag)
      ensures s.clientCapabilities.deltaEnabled == CountEnabled(clientCapabilities, DeltaFlag)
      ensures s.clientCapabilities.batchEnabled == CountEnabled(clientCapabilities, BatchFlag)
      ensures s.clientCapabilities.compressionEnabled <= s.clientCapabilities.totalClients
      ensures s.clientCapabilities.deltaEnabled <= s.clientCapabilities.totalClients
      ensures s.clientCapabilities.batchEnabled <= s.clientCapabilities.totalClients
      ensures s.websocket.connectedClients == |manager.connectedClients|
      ensures s.websocket.totalSubscriptions ==
        WebSockets.SumOf(manager.clientSubscriptions.Keys, WebSockets.SubscriptionCounts(manager.clientSubscriptions))
      ensures s.websocket.activeSymbols == |manager.symbolSubscribers|
      ensures s.websocket.queuedMessages == WebSockets.SumOf(manager.messageQueue.Keys, WebSockets.QueueLengths(manager.messageQueue))
      ensures s.pendingBatches.Keys == pendingBatches.Keys
      ensures forall c :: c in pendingBatches ==> s.pendingBatches[c] == |pendingBatches[c]|
      ensures s.batchConfig == batchConfig
    {
      var websocket := manager.GetConnectionStats();
      var counts := CapabilityCounts(
        |clientCapabilities|,
        CountEnabled(clientCapabilities, CompressionFlag),
        CountEnabled(clientCapabilities, DeltaFlag),
        CountEnabled(clientCapabilities, BatchFlag));
      var lengths := map c | c in pendingBatches :: |pendingBatches[c]|;
      s := OptimizationStats(compression.GetCompressionStats(), websocket, counts, lengths, batchConfig);
    }

    /** `update_batch_config`: the given entries replace the current ones.
        Raising (or keeping) the flush size keeps every batch below it. */
    method UpdateBatchConfig(change: ConfigChange)
      modifies this
      ensures batchConfig.maxBatchSize == Override(old(batchConfig).maxBatchSize, change.maxBatchSize)
      ensures batchConfig.batchTimeoutMs == Override(old(batchConfig).batchTimeoutMs, change.batchTimeoutMs)
      ensures batchConfig.enableCompression == Override(old(batchConfig).enableCompression, change.enableCompression)
      ensures batchConfig.compressionThreshold == Override(old(batchConfig).compressionThreshold, change.compressionThreshold)
      ensures old(BatchesBelowMax()) && batchConfig.maxBatchSize >= old(batchConfig).maxBatchSize ==> BatchesBelowMax()
      ensures clientCapabilities == old(clientCapabilities) && pendingBatches == old(pendingBatches)
      ensures outbox == old(outbox)
    {
      batchConfig := BatchConfig(
        Override(batchConfig.maxBatchSize, change.maxBatchSize),
        Override(batchConfig.batchTimeoutMs, change.batchTimeoutMs),
        Override(batchConfig.enableCompression, change.enableCompression),
        Override(batchConfig.compressionThreshold, change.compressionThreshold));
    }

    /** `cleanup_client_data`: the client's capabilities and batch are
        forgotten, pending updates included; nobody else's are touched. */
    method CleanupClientData(client: string)
      modifies this
      ensures clientCapabilities == old(clientCapabilities) - {client}
      ensures pendingBatches == old(pendingBatches) - {client}
      ensures old(BatchesBelowMax()) ==> BatchesBelowMax()
      ensures batchConfig == old(batchConfig) && outbox == old(outbox)
    {
      clientCapabilities := clientCapabilities - {client};
      pendingBatches := pendingBatches - {client};
    }
  }
}
