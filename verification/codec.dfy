/** services/compression_service.py: the field-alias remapping, the
    delta/full update encoder with its per-symbol baseline, the batch
    envelope and the compression counters. */
module Codec {
  import opened Values
  import StockQuotes

  // ---------------------------------------------------------------------
  // Field aliases
  // ---------------------------------------------------------------------

  /** `field_mapping` of `_optimize_data_structure`. */
  const FieldMapping: map<string, string> := map[
    "symbol" := "s", "company_name" := "cn", "current_price" := "cp", "change" := "c",
    "percent_change" := "pc", "volume" := "v", "timestamp" := "t", "bid_price" := "bp",
    "ask_price" := "ap", "high" := "h", "low" := "l"]

  /** `reverse_mapping` of `_restore_data_structure`. */
  const ReverseMapping: map<string, string> := map[
    "s" := "symbol", "cn" := "company_name", "cp" := "current_price", "c" := "change",
    "pc" := "percent_change", "v" := "volume", "t" := "timestamp", "bp" := "bid_price",
    "ap" := "ask_price", "h" := "high", "l" := "low"]

  /** Float fields rounded to two places; `percent_change` gets three. */
  const PriceFields: set<string> := {"current_price", "change", "bid_price", "ask_price", "high", "low"}

  /** The two tables are mutual inverses over the eleven quote fields. */
  lemma MappingsAreInverse()
    ensures FieldMapping.Keys == StockQuotes.QuoteFieldSet
    ensures forall k :: k in FieldMapping ==>
      FieldMapping[k] in ReverseMapping && ReverseMapping[FieldMapping[k]] == k
    ensures forall a :: a in ReverseMapping ==>
      ReverseMapping[a] in FieldMapping && FieldMapping[ReverseMapping[a]] == a
  {
  }

  /** `field_mapping.get(key, key)`. */
  function ShortKey(k: string): string
  {
    if k in FieldMapping then FieldMapping[k] else k
  }

  /** `reverse_mapping.get(key, key)`. */
  function LongKey(k: string): string
  {
    if k in ReverseMapping then ReverseMapping[k] else k
  }

  /** What `_optimize_data_structure` stores for one entry: floats rounded per
      field, other values kept, None dropped. */
  function OptimizeValue(k: string, v: Value): (r: Option<Value>)
    ensures r.None? <==> v == VNone
    ensures !v.VFloat? && v != VNone ==> r == Some(v)
    ensures v.VFloat? && k !in PriceFields && k != "percent_change" ==> r == Some(v)
  {
    match v
    case VNone => None
    case VFloat(x) =>
      if k in PriceFields then Some(VFloat(Round(x, 2)))
      else if k == "percent_change" then Some(VFloat(Round(x, 3)))
      else Some(v)
    case _ => Some(v)
  }

  /** The value kept when restoring: every entry, None included. */
  function KeepValue(k: string, v: Value): Option<Value>
  {
    Some(v)
  }

  // ---------------------------------------------------------------------
  // The key-remapping loop shared by optimize and restore
  // ---------------------------------------------------------------------

  /** The dict built by visiting the first `n` keys of `d` in order and, for
      each key `k` whose value `g` keeps, assigning the kept value at `f(k)`
      (a later assignment to the same target overwrites an earlier one). */
  function Remap(d: Dict, n: nat, f: string -> string, g: (string, Value) -> Option<Value>): (r: Dict)
    requires WellFormed(d) && n <= |d.keys|
    ensures WellFormed(r)
    decreases n
  {
    if n == 0 then Empty
    else
      var acc := Remap(d, n - 1, f, g);
      var k := d.keys[n - 1];
      match g(k, d.vals[k])
      case None => acc
      case Some(v) => Put(acc, f(k), v)
  }

  /** The targets written are those of the kept entries. */
  lemma {:induction false} RemapKeys(d: Dict, n: nat, f: string -> string, g: (string, Value) -> Option<Value>)
    requires WellFormed(d) && n <= |d.keys|
    ensures Remap(d, n, f, g).vals.Keys ==
            set i | 0 <= i < n && g(d.keys[i], d.vals[d.keys[i]]).Some? :: f(d.keys[i])
  {
    if n > 0 {
      RemapKeys(d, n - 1, f, g);
      var k := d.keys[n - 1];
      var earlier := set i | 0 <= i < n - 1 && g(d.keys[i], d.vals[d.keys[i]]).Some? :: f(d.keys[i]);
      var all := set i | 0 <= i < n && g(d.keys[i], d.vals[d.keys[i]]).Some? :: f(d.keys[i]);
      if g(k, d.vals[k]).Some? {
        assert all == earlier + {f(k)};
      } else {
        assert all == earlier;
      }
    }
  }

  /** An entry whose target no other kept entry shares ends up at its target. */
  lemma {:induction false} RemapAt(d: Dict, n: nat, f: string -> string, g: (string, Value) -> Option<Value>, i: nat)
    requires WellFormed(d) && i < n <= |d.keys|
    requires g(d.keys[i], d.vals[d.keys[i]]).Some?
    requires forall j :: 0 <= j < n && j != i && g(d.keys[j], d.vals[d.keys[j]]).Some? ==>
               f(d.keys[j]) != f(d.keys[i])
    ensures f(d.keys[i]) in Remap(d, n, f, g).vals
    ensures Remap(d, n, f, g).vals[f(d.keys[i])] == g(d.keys[i], d.vals[d.keys[i]]).value
  {
    if i < n - 1 {
      RemapAt(d, n - 1, f, g, i);
    } else if n - 1 > 0 {
      RemapKeys(d, n - 1, f, g);
    }
  }

  /** With every entry kept and distinct targets, the result lists the
      targets in the original order. */
  lemma {:induction false} RemapShape(d: Dict, n: nat, f: string -> string, g: (string, Value) -> Option<Value>)
    requires WellFormed(d) && n <= |d.keys|
    requires forall k :: k in d.vals ==> g(k, d.vals[k]).Some?
    requires forall i, j :: 0 <= i < j < |d.keys| ==> f(d.keys[i]) != f(d.keys[j])
    ensures |Remap(d, n, f, g).keys| == n
    ensures forall i :: 0 <= i < n ==> Remap(d, n, f, g).keys[i] == f(d.keys[i])
  {
    if n > 0 {
      RemapShape(d, n - 1, f, g);
      var acc := Remap(d, n - 1, f, g);
      var k := d.keys[n - 1];
      assert k in d.vals;
      var v := g(k, d.vals[k]).value;
      assert f(k) !in acc.keys by {
        forall i | 0 <= i < |acc.keys| ensures acc.keys[i] != f(k) {
          assert acc.keys[i] == f(d.keys[i]);
        }
      }
      var r := Remap(d, n, f, g);
      assert r.keys == acc.keys + [f(k)];
      assert |r.keys| == |acc.keys| + 1;
    } else {
      assert Remap(d, n, f, g) == Empty;
    }
  }

  // ---------------------------------------------------------------------
  // _optimize_data_structure / _restore_data_structure
  // ---------------------------------------------------------------------

  /** `_optimize_data_structure`. */
  function OptimizeDataStructure(d: Dict): (r: Dict)
    requires WellFormed(d)
    ensures WellFormed(r)
  {
    Remap(d, |d.keys|, ShortKey, OptimizeValue)
  }

  /** `_restore_data_structure`. */
  function RestoreDataStructure(d: Dict): (r: Dict)
    requires WellFormed(d)
    ensures WellFormed(r)
  {
    Remap(d, |d.keys|, LongKey, KeepValue)
  }

  /** The optimized keys are the aliases of the keys whose value is not
      None: None-valued entries are dropped. */
  lemma OptimizeKeys(d: Dict)
    requires WellFormed(d)
    ensures OptimizeDataStructure(d).vals.Keys == set k | k in d.vals && d.vals[k] != VNone :: ShortKey(k)
  {
    RemapKeys(d, |d.keys|, ShortKey, OptimizeValue);
  }

  /** The restored keys are the long names of the given keys. */
  lemma RestoreKeys(d: Dict)
    requires WellFormed(d)
    ensures RestoreDataStructure(d).vals.Keys == set k | k in d.vals :: LongKey(k)
  {
    RemapKeys(d, |d.keys|, LongKey, KeepValue);
  }

  /** A key outside the table that is not itself an alias passes through
      optimize unchanged (when its value is not None). */
  lemma OptimizePassThrough(d: Dict, k: string)
    requires WellFormed(d) && k in d.vals && d.vals[k] != VNone
    requires k !in FieldMapping && k !in ReverseMapping
    ensures k in OptimizeDataStructure(d).vals && OptimizeDataStructure(d).vals[k] == d.vals[k]
  {
    var i :| 0 <= i < |d.keys| && d.keys[i] == k;
    forall j | 0 <= j < |d.keys| && j != i
      ensures ShortKey(d.keys[j]) != ShortKey(d.keys[i])
    {
      assert d.keys[j] != k;
    }
    RemapAt(d, |d.keys|, ShortKey, OptimizeValue, i);
  }

  /** A key that is not an alias passes through restore unchanged. */
  lemma RestorePassThrough(d: Dict, k: string)
    requires WellFormed(d) && k in d.vals
    requires k !in ReverseMapping && k !in FieldMapping
    ensures k in RestoreDataStructure(d).vals && RestoreDataStructure(d).vals[k] == d.vals[k]
  {
    var i :| 0 <= i < |d.keys| && d.keys[i] == k;
    forall j | 0 <= j < |d.keys| && j != i
      ensures LongKey(d.keys[j]) != LongKey(d.keys[i])
    {
      assert d.keys[j] != k;
    }
    RemapAt(d, |d.keys|, LongKey, KeepValue, i);
  }

  /** The conditions under which restore undoes optimize: no key is itself an
      alias, no value is None, and rounding changes no float. */
  ghost predicate Restorable(d: Dict)
  {
    && WellFormed(d)
    && (forall k :: k in d.vals ==> k !in ReverseMapping)
    && (forall k :: k in d.vals ==> OptimizeValue(k, d.vals[k]) == Some(d.vals[k]))
  }

  /** A key that is not an alias comes back from its alias. */
  lemma LongOfShort(k: string)
    requires k !in ReverseMapping
    ensures LongKey(ShortKey(k)) == k
  {
    MappingsAreInverse();
  }

  /** A remapping that keeps every entry unchanged and renames distinct
      keys to distinct targets renames the keys in place, in order. */
  lemma RemapRenames(d: Dict, f: string -> string, g: (string, Value) -> Option<Value>)
    requires WellFormed(d)
    requires forall k :: k in d.vals ==> g(k, d.vals[k]) == Some(d.vals[k])
    requires forall i, j :: 0 <= i < j < |d.keys| ==> f(d.keys[i]) != f(d.keys[j])
    ensures |Remap(d, |d.keys|, f, g).keys| == |d.keys|
    ensures forall i :: 0 <= i < |d.keys| ==>
      && Remap(d, |d.keys|, f, g).keys[i] == f(d.keys[i])
      && Remap(d, |d.keys|, f, g).vals[f(d.keys[i])] == d.vals[d.keys[i]]
  {
    var n := |d.keys|;
    RemapShape(d, n, f, g);
    forall i | 0 <= i < n
      ensures Remap(d, n, f, g).vals[f(d.keys[i])] == d.vals[d.keys[i]]
    {
      RemapAt(d, n, f, g, i);
    }
  }

  /** Remapping back undoes a remapping that keeps every entry unchanged
      and whose key renaming `f2` inverts. */
  lemma RemapRoundTrip(d: Dict, f: string -> string, g: (string, Value) -> Option<Value>,
                       f2: string -> string, g2: (string, Value) -> Option<Value>)
    requires WellFormed(d)
    requires forall k :: k in d.vals ==> g(k, d.vals[k]) == Some(d.vals[k])
    requires forall i :: 0 <= i < |d.keys| ==> f2(f(d.keys[i])) == d.keys[i]
    requires forall k, v :: g2(k, v) == Some(v)
    ensures |Remap(d, |d.keys|, f, g).keys| == |d.keys|
    ensures Remap(Remap(d, |d.keys|, f, g), |d.keys|, f2, g2) == d
  {
    var n := |d.keys|;
    forall i, j | 0 <= i < j < n ensures f(d.keys[i]) != f(d.keys[j]) {
      assert f2(f(d.keys[i])) == d.keys[i];
    }
    RemapRenames(d, f, g);
    var o := Remap(d, n, f, g);
    forall i, j | 0 <= i < j < n ensures f2(o.keys[i]) != f2(o.keys[j]) {
      assert f2(o.keys[i]) == d.keys[i];
    }
    RemapRenames(o, f2, g2);
    var r := Remap(o, n, f2, g2);
    forall i | 0 <= i < n ensures r.keys[i] == d.keys[i] && r.vals[d.keys[i]] == d.vals[d.keys[i]] {
      assert r.keys[i] == f2(o.keys[i]);
    }
    DictExtensional(r, d);
  }

  /** Two well-formed dicts with the same keys in the same order and the
      same entries are equal. */
  lemma DictExtensional(a: Dict, b: Dict)
    requires WellFormed(a) && WellFormed(b) && |a.keys| == |b.keys|
    requires forall i :: 0 <= i < |b.keys| ==> a.keys[i] == b.keys[i] && a.vals[b.keys[i]] == b.vals[b.keys[i]]
    ensures a == b
  {
    assert a.keys == b.keys;
    assert a.vals.Keys == b.vals.Keys;
    forall k | k in b.vals ensures a.vals[k] == b.vals[k] {
      var i :| 0 <= i < |b.keys| && b.keys[i] == k;
    }
    assert a.vals == b.vals;
  }

  /** restore(optimize(d)) == d, key order included. */
  lemma RestoreOptimize(d: Dict)
    requires Restorable(d)
    ensures RestoreDataStructure(OptimizeDataStructure(d)) == d
  {
    forall i | 0 <= i < |d.keys| ensures LongKey(ShortKey(d.keys[i])) == d.keys[i] {
      LongOfShort(d.keys[i]);
    }
    RemapRoundTrip(d, ShortKey, OptimizeValue, LongKey, KeepValue);
  }

  /** A quote the compact encoding carries exactly: every optional price is
      present (None entries are dropped) and no price has more decimals than
      the encoding keeps. */
  ghost predicate ExactlyEncodable(q: StockQuotes.StockQuote)
  {
    && Round(q.currentPrice, 2) == q.currentPrice
    && Round(q.change, 2) == q.change
    && Round(q.percentChange, 3) == q.percentChange
    && q.bidPrice.Some? && Round(q.bidPrice.value, 2) == q.bidPrice.value
    && q.askPrice.Some? && Round(q.askPrice.value, 2) == q.askPrice.value
    && q.high.Some? && Round(q.high.value, 2) == q.high.value
    && q.low.Some? && Round(q.low.value, 2) == q.low.value
  }

  /** No quote field name is itself an alias. */
  lemma QuoteFieldsAreNotAliases()
    ensures forall k :: k in StockQuotes.QuoteFieldSet ==> k !in ReverseMapping
  {
  }

  /** Optimizing leaves every entry of an exactly encodable quote unchanged. */
  lemma QuoteEntriesStable(q: StockQuotes.StockQuote, ts: string)
    requires ExactlyEncodable(q)
    ensures forall k :: k in StockQuotes.QuoteFieldSet ==>
      OptimizeValue(k, StockQuotes.QuoteEntries(q, ts)[k]) == Some(StockQuotes.QuoteEntries(q, ts)[k])
  {
    var m := StockQuotes.QuoteEntries(q, ts);
    assert OptimizeValue("current_price", m["current_price"]) == Some(m["current_price"]);
    assert OptimizeValue("change", m["change"]) == Some(m["change"]);
    assert OptimizeValue("percent_change", m["percent_change"]) == Some(m["percent_change"]);
    assert OptimizeValue("bid_price", m["bid_price"]) == Some(m["bid_price"]);
    assert OptimizeValue("ask_price", m["ask_price"]) == Some(m["ask_price"]);
    assert OptimizeValue("high", m["high"]) == Some(m["high"]);
    assert OptimizeValue("low", m["low"]) == Some(m["low"]);
  }

  /** The compact encoding of an exactly encodable quote's `to_dict`
      restores to that dict. */
  lemma QuoteDictRestorable(q: StockQuotes.StockQuote)
    requires StockQuotes.ValidQuote(q) && ExactlyEncodable(q)
    ensures RestoreDataStructure(OptimizeDataStructure(StockQuotes.ToDict(q))) == StockQuotes.ToDict(q)
  {
    QuoteFieldsAreNotAliases();
    QuoteEntriesStable(q, StockQuotes.IsoFormat(q.timestamp));
    RestoreOptimize(StockQuotes.ToDict(q));
  }

  // ---------------------------------------------------------------------
  // Updates and their wire dicts
  // ---------------------------------------------------------------------

  /** The update messages `create_delta_update` and `create_full_update`
      produce. */
  datatype Update =
    | Delta(symbol: string, timestamp: Value, changes: Dict)
    | Heartbeat(symbol: string, timestamp: Value)
    | Full(symbol: string, timestamp: Value, data: Dict)

  /** The dict an update is sent as. */
  function UpdateDict(u: Update): (r: Dict)
    ensures WellFormed(r)
    ensures |r.keys| >= 3 && r.keys[..3] == ["symbol", "type", "timestamp"]
    ensures Get(r, "symbol") == VStr(u.symbol) && Get(r, "timestamp") == u.timestamp
  {
    match u
    case Delta(sym, ts, changes) =>
      Dict(["symbol", "type", "timestamp", "changes"],
           map["symbol" := VStr(sym), "type" := VStr("delta"), "timestamp" := ts, "changes" := VDict(changes)])
    case Heartbeat(sym, ts) =>
      Dict(["symbol", "type", "timestamp"],
           map["symbol" := VStr(sym), "type" := VStr("heartbeat"), "timestamp" := ts])
    case Full(sym, ts, data) =>
      Dict(["symbol", "type", "timestamp", "data"],
           map["symbol" := VStr(sym), "type" := VStr("full"), "timestamp" := ts, "data" := VDict(data)])
  }

  /** `new_dict.get('timestamp', datetime.now().isoformat())`. */
  function TimestampOr(d: Dict, nowIso: string): Value
  {
    if "timestamp" in d.vals then d.vals["timestamp"] else VStr(nowIso)
  }

  /** `previous_data_cache.get(symbol, {})`. */
  function Baseline(cache: map<string, Dict>, symbol: string): Dict
  {
    if symbol in cache then cache[symbol] else Empty
  }

  /** The entries of `new` other than the timestamp whose value differs
      (by Python `==`) from the baseline's, a missing baseline key reading as
      None. */
  function ChangedFields(prev: Dict, latest: Dict): map<string, Value>
  {
    map k | k in latest.vals && k != "timestamp" && !PyEq(Get(prev, k), latest.vals[k]) :: latest.vals[k]
  }

  /** The changes `create_delta_update` collects from the first `n` keys
      of `latest`, in their order. */
  function ChangesIn(prev: Dict, latest: Dict, n: nat): (c: Dict)
    requires WellFormed(latest) && n <= |latest.keys|
    ensures WellFormed(c)
    ensures forall k :: k in c.vals <==>
      k in latest.keys[..n] && k != "timestamp" && !PyEq(Get(prev, k), latest.vals[k])
    ensures forall k :: k in c.vals ==> c.vals[k] == latest.vals[k]
  {
    if n == 0 then Empty
    else
      var c := ChangesIn(prev, latest, n - 1);
      var k := latest.keys[n - 1];
      assert latest.keys[..n] == latest.keys[..n - 1] + [k];
      if k != "timestamp" && !PyEq(Get(prev, k), latest.vals[k]) then Put(c, k, latest.vals[k]) else c
  }

  /** One more key of `latest` adds that key to the changes when its
      value differs from the baseline's. */
  lemma ChangesInNext(prev: Dict, latest: Dict, i: nat)
    requires WellFormed(latest) && i < |latest.keys|
    ensures var k := latest.keys[i];
      ChangesIn(prev, latest, i + 1) ==
        if k != "timestamp" && !PyEq(Get(prev, k), latest.vals[k]) then Put(ChangesIn(prev, latest, i), k, latest.vals[k])
        else ChangesIn(prev, latest, i)
  {
  }

  /** What `create_delta_update` returns against the baseline `prev`: the
      changed fields in the order of `latest`, or a heartbeat when none
      changed; the timestamp is the data's own, or the current time. */
  function DeltaUpdate(prev: Dict, symbol: string, latest: Dict, nowIso: string): (u: Update)
    requires WellFormed(latest)
    ensures u.symbol == symbol && u.timestamp == TimestampOr(latest, nowIso)
    ensures u.Delta? || u.Heartbeat?
    ensures u.Heartbeat? <==> ChangedFields(prev, latest) == map[]
    ensures u.Delta? ==> WellFormed(u.changes) && u.changes.vals == ChangedFields(prev, latest)
  {
    var changes := ChangesIn(prev, latest, |latest.keys|);
    assert latest.keys[..|latest.keys|] == latest.keys;
    assert changes.vals == ChangedFields(prev, latest);
    assert changes.keys != [] <==> changes.vals != map[] by {
      if changes.keys != [] {
        assert changes.keys[0] in changes.vals;
      }
    }
    if changes.keys != [] then Delta(symbol, TimestampOr(latest, nowIso), changes)
    else Heartbeat(symbol, TimestampOr(latest, nowIso))
  }

  /** The comparison loop of `create_delta_update`: every key of the new
      data but the timestamp whose value differs from the baseline's is
      copied into the changes, in the data's order. */
  method CollectChanges(prev: Dict, latest: Dict) returns (changes: Dict)
    requires WellFormed(latest)
    ensures changes == ChangesIn(prev, latest, |latest.keys|)
  {
    changes := Empty;
    var i := 0;
    while i < |latest.keys|
      invariant 0 <= i <= |latest.keys|
      invariant changes == ChangesIn(prev, latest, i)
    {
      var key := latest.keys[i];
      ChangesInNext(prev, latest, i);
      if key != "timestamp" {
        var newValue := latest.vals[key];
        if !PyEq(Get(prev, key), newValue) {
          changes := Put(changes, key, newValue);
        }
      }
      i := i + 1;
    }
  }

  /** The baseline with a delta's changes applied, as a client merges them. */
  function ApplyChanges(prev: map<string, Value>, changes: map<string, Value>): map<string, Value>
  {
    prev + changes
  }

  /** Applying the changes to the baseline reproduces every field of the new
      data (up to Python `==`, a missing key reading as None), the timestamp
      aside, which the update carries separately. */
  lemma DeltaReconstructs(prev: Dict, latest: Dict)
    ensures forall k :: k in latest.vals && k != "timestamp" ==>
      PyEq(Get(Dict([], ApplyChanges(prev.vals, ChangedFields(prev, latest))), k), latest.vals[k])
  {
    forall k | k in latest.vals && k != "timestamp"
      ensures PyEq(Get(Dict([], ApplyChanges(prev.vals, ChangedFields(prev, latest))), k), latest.vals[k])
    {
      PyEqReflexive(latest.vals[k]);
    }
  }

  /** Data identical to the baseline yields no changes, so a delta right
      after a full update of the same data is a heartbeat. */
  lemma NoChangesAgainstItself(d: Dict)
    ensures ChangedFields(d, d) == map[]
  {
    forall k | k in d.vals ensures PyEq(Get(d, k), d.vals[k]) {
      PyEqReflexive(d.vals[k]);
    }
  }

  // ---------------------------------------------------------------------
  // Serialised form
  // ---------------------------------------------------------------------

  /** The bytes `compress_stock_data` returns: a MessagePack document of the
      optimized dict (gzip-wrapped or not), or the JSON text of the original
      dict when packing fails. */
  datatype Blob = Packed(content: Dict, gzipped: bool) | JsonBytes(content: Dict)

  /** MessagePack can encode the value: its integers fit in 64 bits (signed
      or unsigned); otherwise `msgpack.packb` raises. */
  predicate FitsMsgPack(v: Value)
  {
    match v
    case VInt(i) => -0x8000_0000_0000_0000 <= i < 0x1_0000_0000_0000_0000
    case VList(xs) => forall i :: 0 <= i < |xs| ==> FitsMsgPack(xs[i])
    case VDict(d) => forall k :: k in d.vals ==> FitsMsgPack(d.vals[k])
    case _ => true
  }

  /** What `compress_stock_data` returns for `data`. */
  function Compressed(data: Dict, useGzip: bool): (b: Blob)
    requires WellFormed(data)
    ensures b.Packed? <==> FitsMsgPack(VDict(OptimizeDataStructure(data)))
    ensures b.Packed? ==> (b.gzipped == useGzip && b.content.vals.Keys ==
      set k | k in data.vals && data.vals[k] != VNone :: ShortKey(k))
  {
    OptimizeKeys(data);
    var optimized := OptimizeDataStructure(data);
    if FitsMsgPack(VDict(optimized)) then Packed(optimized, useGzip) else JsonBytes(data)
  }

  /** The errors `decompress_stock_data` raises. */
  datatype DecodeError = UnableToDecompress

  datatype Decoded<T> = Decoded(value: T) | Failed(error: DecodeError)

  /** `decompress_stock_data`: a packed document read with the gzip flag it
      was written with is unpacked and restored; JSON text is parsed as is
      (the MessagePack or gzip step fails on it first); a packed document
      read with the wrong flag is neither valid MessagePack nor UTF-8 JSON. */
  function DecompressStockData(b: Blob, useGzip: bool): (r: Decoded<Dict>)
    requires WellFormed(b.content)
    ensures b.JsonBytes? ==> r == Decoded(b.content)
    ensures b.Packed? && b.gzipped != useGzip ==> r.Failed?
  {
    match b
    case Packed(content, gzipped) =>
      if gzipped == useGzip then Decoded(RestoreDataStructure(content)) else Failed(UnableToDecompress)
    case JsonBytes(content) => Decoded(content)
  }

  /** Decompressing with the same gzip flag returns the compressed dict
      whenever restore undoes optimize on it. */
  lemma CompressRoundTrip(data: Dict, useGzip: bool)
    requires Restorable(data)
    ensures DecompressStockData(Compressed(data, useGzip), useGzip) == Decoded(data)
  {
    RestoreOptimize(data);
  }

  /** The envelope `compress_batch_updates` wraps a batch in. */
  function BatchEnvelope(updates: seq<Dict>, nowIso: string): (r: Dict)
    ensures WellFormed(r)
    ensures Get(r, "count") == VInt(|updates|)
  {
    Dict(["type", "timestamp", "count", "updates"],
         map["type" := VStr("batch"), "timestamp" := VStr(nowIso), "count" := VInt(|updates|),
             "updates" := VList(seq(|updates|, i requires 0 <= i < |updates| => VDict(updates[i])))])
  }

  /** `decompress_batch_updates`: the envelope's `updates`, an empty list
      when absent. */
  function DecompressBatchUpdates(b: Blob): (r: Decoded<Value>)
    requires WellFormed(b.content)
    ensures r.Failed? <==> DecompressStockData(b, true).Failed?
  {
    match DecompressStockData(b, true)
    case Decoded(d) => Decoded(if "updates" in d.vals then d.vals["updates"] else VList([]))
    case Failed(e) => Failed(e)
  }

  /** A compressed batch decompresses to the list of updates it was built
      from. */
  lemma BatchRoundTrip(updates: seq<Dict>, nowIso: string)
    ensures DecompressBatchUpdates(Compressed(BatchEnvelope(updates, nowIso), true)) ==
            Decoded(VList(seq(|updates|, i requires 0 <= i < |updates| => VDict(updates[i]))))
  {
    EnvelopeRestorable(updates, nowIso);
    CompressRoundTrip(BatchEnvelope(updates, nowIso), true);
  }

  /** No envelope key is an alias, and optimizing keeps every envelope
      entry: its values are strings, an int and a list. */
  lemma EnvelopeRestorable(updates: seq<Dict>, nowIso: string)
    ensures Restorable(BatchEnvelope(updates, nowIso))
  {
    var env := BatchEnvelope(updates, nowIso);
    assert env.vals.Keys == {"type", "timestamp", "count", "updates"};
    forall k | k in env.vals ensures k !in ReverseMapping {
      assert |k| > 2;
    }
    forall k | k in env.vals ensures OptimizeValue(k, env.vals[k]) == Some(env.vals[k]) {
      assert !env.vals[k].VFloat? && env.vals[k] != VNone;
    }
  }

  // ---------------------------------------------------------------------
  // The service
  // ---------------------------------------------------------------------

  /** `get_compression_stats()`. */
  datatype CompressionStats = CompressionStats(
    totalCompressions: nat, totalOriginalSize: nat, totalCompressedSize: nat,
    deltaUpdates: nat, fullUpdates: nat,
    averageCompressionRatio: real, averageOriginalSize: real, averageCompressedSize: real)

  /** The five counters of `compression_stats`. */
  datatype Counters = Counters(totalCompressions: nat, totalOriginalSize: nat, totalCompressedSize: nat,
                               deltaUpdates: nat, fullUpdates: nat)

  /** The counters after `compress_stock_data` produced `b`: only a
      MessagePack result counts a compression and adds its two sizes. */
  function Packing(c: Counters, b: Blob, originalSize: nat, compressedSize: nat): (r: Counters)
    ensures r.deltaUpdates == c.deltaUpdates && r.fullUpdates == c.fullUpdates
    ensures b.Packed? <==> r.totalCompressions == c.totalCompressions + 1
    ensures b.Packed? ==> (r.totalOriginalSize == c.totalOriginalSize + originalSize
      && r.totalCompressedSize == c.totalCompressedSize + compressedSize)
    ensures !b.Packed? ==> r == c
  {
    if b.Packed? then
      c.(totalCompressions := c.totalCompressions + 1,
         totalOriginalSize := c.totalOriginalSize + originalSize,
         totalCompressedSize := c.totalCompressedSize + compressedSize)
    else c
  }

  /** The counters after `create_delta_update` or `create_full_update`
      built `u`: a delta counts a delta update, a full update a full one,
      and a heartbeat nothing. */
  function Encoding(c: Counters, u: Update): (r: Counters)
    ensures r.totalCompressions == c.totalCompressions
    ensures r.totalOriginalSize == c.totalOriginalSize && r.totalCompressedSize == c.totalCompressedSize
    ensures r.deltaUpdates == c.deltaUpdates + (if u.Delta? then 1 else 0)
    ensures r.fullUpdates == c.fullUpdates + (if u.Full? then 1 else 0)
  {
    match u
    case Delta(_, _, _) => c.(deltaUpdates := c.deltaUpdates + 1)
    case Heartbeat(_, _) => c
    case Full(_, _, _) => c.(fullUpdates := c.fullUpdates + 1)
  }

  class CompressionService {
    /** symbol -> the data last encoded for it */
    var previousDataCache: map<string, Dict>
    var totalCompressions: nat
    var totalOriginalSize: nat
    var totalCompressedSize: nat
    var deltaUpdates: nat
    var fullUpdates: nat

    /** Every compression added at least the two bytes of `{}` of JSON and
        one byte of output. */
    ghost predicate Valid()
      reads this
    {
      totalOriginalSize >= 2 * totalCompressions && totalCompressedSize >= totalCompressions
    }

    /** The counters as one value. */
    function Counts(): (c: Counters)
      reads this
      ensures c.totalCompressions == totalCompressions && c.deltaUpdates == deltaUpdates
      ensures c.totalOriginalSize == totalOriginalSize && c.totalCompressedSize == totalCompressedSize
      ensures c.fullUpdates == fullUpdates
    {
      Counters(totalCompressions, totalOriginalSize, totalCompressedSize, deltaUpdates, fullUpdates)
    }

    constructor()
      ensures Valid()
      ensures previousDataCache == map[]
      ensures totalCompressions == 0 && totalOriginalSize == 0 && totalCompressedSize == 0
      ensures deltaUpdates == 0 && fullUpdates == 0
    {
      previousDataCache := map[];
      totalCompressions, totalOriginalSize, totalCompressedSize := 0, 0, 0;
      deltaUpdates, fullUpdates := 0, 0;
    }

    /** `compress_stock_data`; `originalSize` and `compressedSize` are the
        byte lengths of the JSON text and of the MessagePack output. */
    method CompressStockData(data: Dict, useGzip: bool, originalSize: nat, compressedSize: nat) returns (b: Blob)
      requires Valid() && WellFormed(data)
      requires originalSize >= 2 && compressedSize >= 1
      modifies this
      ensures Valid()
      ensures b == Compressed(data, useGzip)
      ensures b.Packed? ==> (totalCompressions == old(totalCompressions) + 1
        && totalOriginalSize == old(totalOriginalSize) + originalSize
        && totalCompressedSize == old(totalCompressedSize) + compressedSize)
      ensures b.JsonBytes? ==> (totalCompressions == old(totalCompressions)
        && totalOriginalSize == old(totalOriginalSize) && totalCompressedSize == old(totalCompressedSize))
      ensures previousDataCache == old(previousDataCache)
      ensures deltaUpdates == old(deltaUpdates) && fullUpdates == old(fullUpdates)
      ensures Counts() == Packing(old(Counts()), b, originalSize, compressedSize)
    {
      var optimized := OptimizeDataStructure(data);
      if FitsMsgPack(VDict(optimized)) {
        b := Packed(optimized, useGzip);
        totalCompressions := totalCompressions + 1;
        totalOriginalSize := totalOriginalSize + originalSize;
        totalCompressedSize := totalCompressedSize + compressedSize;
      } else {
        b := JsonBytes(data);
      }
    }

    /** `compress_batch_updates`. */
    method CompressBatchUpdates(updates: seq<Dict>, nowIso: string, originalSize: nat, compressedSize: nat)
      returns (b: Blob)
      requires Valid()
      requires originalSize >= 2 && compressedSize >= 1
      modifies this
      ensures Valid()
      ensures b == Compressed(BatchEnvelope(updates, nowIso), true)
      ensures previousDataCache == old(previousDataCache)
      ensures deltaUpdates == old(deltaUpdates) && fullUpdates == old(fullUpdates)
      ensures b.Packed? ==> (totalCompressions == old(totalCompressions) + 1
        && totalOriginalSize == old(totalOriginalSize) + originalSize
        && totalCompressedSize == old(totalCompressedSize) + compressedSize)
      ensures b.JsonBytes? ==> (totalCompressions == old(totalCompressions)
        && totalOriginalSize == old(totalOriginalSize) && totalCompressedSize == old(totalCompressedSize))
      ensures Counts() == Packing(old(Counts()), b, originalSize, compressedSize)
    {
      b := CompressStockData(BatchEnvelope(updates, nowIso), true, originalSize, compressedSize);
    }

    /** `create_delta_update`: the fields that changed since the symbol's
        baseline, or a heartbeat when none did; the new data becomes the
        baseline. */
    method CreateDeltaUpdate(symbol: string, newDict: Dict, nowIso: string) returns (u: Update)
      requires Valid() && WellFormed(newDict)
      modifies this
      ensures Valid()
      ensures previousDataCache == old(previousDataCache)[symbol := newDict]
      ensures u == DeltaUpdate(Baseline(old(previousDataCache), symbol), symbol, newDict, nowIso)
      ensures deltaUpdates == old(deltaUpdates) + (if u.Delta? then 1 else 0)
      ensures fullUpdates == old(fullUpdates) && totalCompressions == old(totalCompressions)
      ensures totalOriginalSize == old(totalOriginalSize) && totalCompressedSize == old(totalCompressedSize)
      ensures Counts() == Encoding(old(Counts()), u)
    {
      var prev := Baseline(previousDataCache, symbol);
      var ts := TimestampOr(newDict, nowIso);
      var changes := CollectChanges(prev, newDict);
      previousDataCache := previousDataCache[symbol := newDict];
      if changes.keys != [] {
        deltaUpdates := deltaUpdates + 1;
        u := Delta(symbol, ts, changes);
      } else {
        u := Heartbeat(symbol, ts);
      }
    }

    /** `create_full_update`: the whole data, which becomes the baseline. */
    method CreateFullUpdate(symbol: string, data: Dict, nowIso: string) returns (u: Update)
      requires Valid()
      modifies this
      ensures Valid()
      ensures u == Full(symbol, TimestampOr(data, nowIso), data)
      ensures previousDataCache == old(previousDataCache)[symbol := data]
      ensures fullUpdates == old(fullUpdates) + 1 && deltaUpdates == old(deltaUpdates)
      ensures totalCompressions == old(totalCompressions)
      ensures totalOriginalSize == old(totalOriginalSize) && totalCompressedSize == old(totalCompressedSize)
      ensures Counts() == Encoding(old(Counts()), u)
    {
      u := Full(symbol, TimestampOr(data, nowIso), data);
      previousDataCache := previousDataCache[symbol := data];
      fullUpdates := fullUpdates + 1;
    }

    /** `get_compression_stats`: the counters plus the averages, which are
        zero before the first compression. */
    function GetCompressionStats(): (s: CompressionStats)
      requires Valid()
      reads this
      ensures s.totalCompressions == totalCompressions && s.deltaUpdates == deltaUpdates
      ensures s.fullUpdates == fullUpdates
      ensures s.totalOriginalSize == totalOriginalSize && s.totalCompressedSize == totalCompressedSize
      ensures totalCompressions == 0 ==>
        s.averageCompressionRatio == 0.0 && s.averageOriginalSize == 0.0 && s.averageCompressedSize == 0.0
      ensures totalCompressions > 0 ==>
        s.averageCompressionRatio < 100.0 && s.averageOriginalSize >= 2.0 && s.averageCompressedSize >= 1.0
    {
      if totalCompressions > 0 then
        AverageAtLeast(totalOriginalSize, totalCompressions, 2);
        AverageAtLeast(totalCompressedSize, totalCompressions, 1);
        PositiveShare(totalCompressedSize, totalOriginalSize);
        CompressionStats(totalCompressions, totalOriginalSize, totalCompressedSize, deltaUpdates, fullUpdates,
          (1.0 - totalCompressedSize as real / totalOriginalSize as real) * 100.0,
          totalOriginalSize as real / totalCompressions as real,
          totalCompressedSize as real / totalCompressions as real)
      else
        CompressionStats(totalCompressions, totalOriginalSize, totalCompressedSize, deltaUpdates, fullUpdates,
          0.0, 0.0, 0.0)
    }

    /** `reset_stats`: the counters go back to zero; the baselines stay. */
    method ResetStats()
      modifies this
      ensures Valid()
      ensures totalCompressions == 0 && totalOriginalSize == 0 && totalCompressedSize == 0
      ensures deltaUpdates == 0 && fullUpdates == 0
      ensures previousDataCache == old(previousDataCache)
    {
      totalCompressions, totalOriginalSize, totalCompressedSize := 0, 0, 0;
      deltaUpdates, fullUpdates := 0, 0;
    }

    /** `clear_cache`: every baseline is forgotten; the counters stay. */
    method ClearCache()
      modifies this
      ensures previousDataCache == map[]
      ensures totalCompressions == old(totalCompressions) && totalOriginalSize == old(totalOriginalSize)
      ensures totalCompressedSize == old(totalCompressedSize)
      ensures deltaUpdates == old(deltaUpdates) && fullUpdates == old(fullUpdates)
    {
      previousDataCache := map[];
    }
  }

  /** A total of at least `least` per item averages at least `least`. */
  lemma AverageAtLeast(total: nat, count: nat, least: nat)
    requires count > 0 && total >= least * count
    ensures total as real / count as real >= least as real
  {
    assert total as real >= least as real * count as real;
  }

  lemma PositiveShare(part: nat, whole: nat)
    requires part > 0 && whole > 0
    ensures (1.0 - part as real / whole as real) * 100.0 < 100.0
  {
    assert part as real / whole as real > 0.0;
  }

  /** After a full update the next delta of the same data is a heartbeat. */
  lemma FullThenSameDeltaIsHeartbeat(cache: map<string, Dict>, symbol: string, d: Dict)
    ensures ChangedFields(Baseline(cache[symbol := d], symbol), d) == map[]
  {
    NoChangesAgainstItself(d);
  }
}
