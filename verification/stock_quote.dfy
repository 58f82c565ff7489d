/** models/stock_quote.py: the quote record, its dictionary form with the
    timestamp as ISO 8601 text, and the JSON / Redis wrappers around it. */
module StockQuotes {
  import opened Values

  /** A naive `datetime` (no time zone), as `datetime.now()` yields. */
  datatype DateTime = DateTime(year: int, month: int, day: int,
                               hour: int, minute: int, second: int, microsecond: int)

  predicate IsLeapYear(y: int)
  {
    y % 4 == 0 && (y % 100 != 0 || y % 400 == 0)
  }

  function DaysInMonth(y: int, m: int): int
  {
    if m == 2 then (if IsLeapYear(y) then 29 else 28)
    else if m == 4 || m == 6 || m == 9 || m == 11 then 30
    else 31
  }

  /** The values a Python `datetime` can hold. */
  predicate ValidDateTime(t: DateTime)
  {
    && 1 <= t.year <= 9999
    && 1 <= t.month <= 12
    && 1 <= t.day <= DaysInMonth(t.year, t.month)
    && 0 <= t.hour < 24
    && 0 <= t.minute < 60
    && 0 <= t.second < 60
    && 0 <= t.microsecond < 1000000
  }

  function DigitChar(d: int): char
    requires 0 <= d < 10
  {
    "0123456789"[d]
  }

  /** `n` written with exactly `width` decimal digits, zero-padded. */
  function Digits(n: nat, width: nat): (s: string)
    requires n < Pow10(width)
    ensures |s| == width
  {
    if width == 0 then "" else Digits(n / 10, width - 1) + [DigitChar(n % 10)]
  }

  function DigitValue(c: char): Option<nat>
  {
    if '0' <= c <= '9' then Some((c as int - '0' as int) as nat) else None
  }

  /** The number a string of decimal digits denotes; None if any character
      is not a digit. */
  function ParseDigits(s: string): Option<nat>
  {
    if s == [] then Some(0)
    else match (ParseDigits(s[..|s| - 1]), DigitValue(s[|s| - 1]))
      case (Some(p), Some(d)) => Some(10 * p + d)
      case _ => None
  }

  lemma {:induction false} ParseDigitsOfDigits(n: nat, width: nat)
    requires n < Pow10(width)
    ensures ParseDigits(Digits(n, width)) == Some(n)
  {
    if width > 0 {
      var s := Digits(n, width);
      assert s[..|s| - 1] == Digits(n / 10, width - 1);
      ParseDigitsOfDigits(n / 10, width - 1);
      assert DigitValue(s[|s| - 1]) == Some(n % 10);
    }
  }

  /** `YYYY-MM-DD`. */
  function DateText(t: DateTime): (s: string)
    requires ValidDateTime(t)
    ensures |s| == 10
  {
    Digits(t.year, 4) + "-" + Digits(t.month, 2) + "-" + Digits(t.day, 2)
  }

  /** `HH:MM:SS`. */
  function TimeText(t: DateTime): (s: string)
    requires ValidDateTime(t)
    ensures |s| == 8
  {
    Digits(t.hour, 2) + ":" + Digits(t.minute, 2) + ":" + Digits(t.second, 2)
  }

  /** `.ffffff`, written only when the microseconds are not zero. */
  function MicroText(t: DateTime): (s: string)
    requires ValidDateTime(t)
    ensures |s| == (if t.microsecond == 0 then 0 else 7)
  {
    if t.microsecond == 0 then "" else "." + Digits(t.microsecond, 6)
  }

  /** `datetime.isoformat()` of a naive datetime. */
  function IsoFormat(t: DateTime): (s: string)
    requires ValidDateTime(t)
    ensures |s| == (if t.microsecond == 0 then 19 else 26)
  {
    DateText(t) + "T" + TimeText(t) + MicroText(t)
  }

  /** Three fixed-width numbers separated by `sep`. */
  function ParseTriple(s: string, w: nat, sep: char): Option<(nat, nat, nat)>
    requires |s| == w + 6
  {
    if s[w] != sep || s[w + 3] != sep then None
    else match (ParseDigits(s[..w]), ParseDigits(s[w + 1..w + 3]), ParseDigits(s[w + 4..]))
      case (Some(a), Some(b), Some(c)) => Some((a, b, c))
      case _ => None
  }

  lemma TripleRoundTrip(a: nat, b: nat, c: nat, w: nat, sep: char)
    requires a < Pow10(w) && b < 100 && c < 100
    ensures ParseTriple(Digits(a, w) + [sep] + Digits(b, 2) + [sep] + Digits(c, 2), w, sep)
            == Some((a, b, c))
  {
    var da, db, dc := Digits(a, w), Digits(b, 2), Digits(c, 2);
    var s := da + [sep] + db + [sep] + dc;
    assert s[..w] == da && s[w] == sep;
    assert s[w + 1..w + 3] == db && s[w + 3] == sep;
    assert s[w + 4..] == dc;
    ParseDigitsOfDigits(a, w);
    ParseDigitsOfDigits(b, 2);
    ParseDigitsOfDigits(c, 2);
    ParseTripleOfParts(s, w, sep, a, b, c);
  }

  /** A triple parses once its separators and its three digit runs do. */
  lemma ParseTripleOfParts(s: string, w: nat, sep: char, a: nat, b: nat, c: nat)
    requires |s| == w + 6 && s[w] == sep && s[w + 3] == sep
    requires ParseDigits(s[..w]) == Some(a)
    requires ParseDigits(s[w + 1..w + 3]) == Some(b)
    requires ParseDigits(s[w + 4..]) == Some(c)
    ensures ParseTriple(s, w, sep) == Some((a, b, c))
  {
  }

  /** `datetime.fromisoformat(s)` restricted to the two shapes `isoformat`
      writes for a naive timestamp (`YYYY-MM-DDTHH:MM:SS` with an optional
      `.ffffff`). None stands for the ValueError raised on malformed text,
      and also for the other shapes `fromisoformat` accepts (a date alone,
      other separators, shorter times or fractions, UTC offsets), which
      this model does not parse. */
  function ParseIso(s: string): (r: Option<DateTime>)
    ensures r.Some? ==> ValidDateTime(r.value)
  {
    if (|s| != 19 && |s| != 26) || s[10] != 'T' then None
    else
      var micro := if |s| == 19 then Some(0)
                   else if s[19] == '.' then ParseDigits(s[20..]) else None;
      match (ParseTriple(s[..10], 4, '-'), ParseTriple(s[11..19], 2, ':'), micro)
      case (Some((y, mo, d)), Some((h, mi, se)), Some(us)) =>
        var t := DateTime(y, mo, d, h, mi, se, us);
        if ValidDateTime(t) then Some(t) else None
      case _ => None
  }

  /** Parsing what `isoformat` wrote gives back the same instant. */
  lemma IsoRoundTrip(t: DateTime)
    requires ValidDateTime(t)
    ensures ParseIso(IsoFormat(t)) == Some(t)
  {
    var s := IsoFormat(t);
    IsoFormatParts(t);
    TripleRoundTrip(t.year, t.month, t.day, 4, '-');
    TripleRoundTrip(t.hour, t.minute, t.second, 2, ':');
    if t.microsecond != 0 {
      ParseDigitsOfDigits(t.microsecond, 6);
    }
    ParseIsoOfParts(s, t);
  }

  /** Where the date, the time and the fraction sit in `isoformat`'s text. */
  lemma IsoFormatParts(t: DateTime)
    requires ValidDateTime(t)
    ensures var s := IsoFormat(t);
      && s[..10] == Digits(t.year, 4) + ['-'] + Digits(t.month, 2) + ['-'] + Digits(t.day, 2)
      && s[10] == 'T'
      && s[11..19] == Digits(t.hour, 2) + [':'] + Digits(t.minute, 2) + [':'] + Digits(t.second, 2)
      && (t.microsecond != 0 ==> s[19] == '.' && s[20..] == Digits(t.microsecond, 6))
  {
    var date, time, micro := DateText(t), TimeText(t), MicroText(t);
    assert IsoFormat(t) == date + "T" + time + micro;
  }

  /** Text parses to `t` once its date, its time and its fraction do. */
  lemma ParseIsoOfParts(s: string, t: DateTime)
    requires ValidDateTime(t)
    requires (|s| == 19 && t.microsecond == 0) || (|s| == 26 && s[19] == '.' && ParseDigits(s[20..]) == Some(t.microsecond))
    requires s[10] == 'T'
    requires ParseTriple(s[..10], 4, '-') == Some((t.year, t.month, t.day))
    requires ParseTriple(s[11..19], 2, ':') == Some((t.hour, t.minute, t.second))
    ensures ParseIso(s) == Some(t)
  {
  }

  datatype StockQuote = StockQuote(
    symbol: string,
    companyName: string,
    currentPrice: real,
    change: real,
    percentChange: real,
    volume: int,
    timestamp: DateTime,
    bidPrice: Option<real>,
    askPrice: Option<real>,
    high: Option<real>,
    low: Option<real>)

  predicate ValidQuote(q: StockQuote)
  {
    ValidDateTime(q.timestamp)
  }

  /** The eleven keys of `to_dict`, in its order. */
  const QuoteFields: seq<string> := ["symbol", "company_name", "current_price", "change",
    "percent_change", "volume", "timestamp", "bid_price", "ask_price", "high", "low"]

  const QuoteFieldSet: set<string> := {"symbol", "company_name", "current_price", "change",
    "percent_change", "volume", "timestamp", "bid_price", "ask_price", "high", "low"}

  lemma QuoteFieldsDistinct()
    ensures forall i, j :: 0 <= i < j < |QuoteFields| ==> QuoteFields[i] != QuoteFields[j]
    ensures forall k :: k in QuoteFields <==> k in QuoteFieldSet
  {
    forall i, j | 0 <= i < j < |QuoteFields| ensures QuoteFields[i] != QuoteFields[j] {
      assert |QuoteFields[i]| != |QuoteFields[j]| || QuoteFields[i][0] != QuoteFields[j][0];
    }
  }

  function OptionalFloat(o: Option<real>): Value
  {
    match o
    case None => VNone
    case Some(x) => VFloat(x)
  }

  /** The entries of `to_dict`. */
  function QuoteEntries(q: StockQuote, ts: string): (m: map<string, Value>)
    ensures m.Keys == QuoteFieldSet
  {
    map[
      "symbol" := VStr(q.symbol),
      "company_name" := VStr(q.companyName),
      "current_price" := VFloat(q.currentPrice),
      "change" := VFloat(q.change),
      "percent_change" := VFloat(q.percentChange),
      "volume" := VInt(q.volume),
      "timestamp" := VStr(ts),
      "bid_price" := OptionalFloat(q.bidPrice),
      "ask_price" := OptionalFloat(q.askPrice),
      "high" := OptionalFloat(q.high),
      "low" := OptionalFloat(q.low)]
  }

  /** What each of the eleven entries holds; kept apart from the function
      so that the string-keyed lookups are only unfolded where they are used. */
  lemma QuoteEntriesValues(q: StockQuote, ts: string)
    ensures QuoteEntries(q, ts)["symbol"] == VStr(q.symbol) && QuoteEntries(q, ts)["company_name"] == VStr(q.companyName)
    ensures QuoteEntries(q, ts)["current_price"] == VFloat(q.currentPrice) && QuoteEntries(q, ts)["change"] == VFloat(q.change)
    ensures QuoteEntries(q, ts)["percent_change"] == VFloat(q.percentChange) && QuoteEntries(q, ts)["volume"] == VInt(q.volume)
    ensures QuoteEntries(q, ts)["timestamp"] == VStr(ts)
    ensures QuoteEntries(q, ts)["bid_price"] == OptionalFloat(q.bidPrice) && QuoteEntries(q, ts)["ask_price"] == OptionalFloat(q.askPrice)
    ensures QuoteEntries(q, ts)["high"] == OptionalFloat(q.high) && QuoteEntries(q, ts)["low"] == OptionalFloat(q.low)
  {
  }

  /** `StockQuote.to_dict`: exactly the eleven field keys, the timestamp as
      ISO 8601 text, an absent optional as None. */
  function ToDict(q: StockQuote): (d: Dict)
    requires ValidQuote(q)
    ensures WellFormed(d)
    ensures d.keys == QuoteFields
    ensures d.vals == QuoteEntries(q, IsoFormat(q.timestamp))
  {
    QuoteFieldsDistinct();
    Dict(QuoteFields, QuoteEntries(q, IsoFormat(q.timestamp)))
  }

  /** The exceptions `from_dict` can raise. */
  datatype QuoteError =
    | KeyError(key: string)
    | TypeMismatch(key: string)
    | InvalidIsoFormat(text: string)

  function RequiredString(d: Dict, key: string): Result<string>
  {
    if key !in d.vals then Err(KeyError(key))
    else match d.vals[key]
      case VStr(s) => Ok(s)
      case _ => Err(TypeMismatch(key))
  }

  function RequiredFloat(d: Dict, key: string): Result<real>
  {
    if key !in d.vals then Err(KeyError(key))
    else match d.vals[key]
      case VFloat(x) => Ok(x)
      case VInt(i) => Ok(i as real)
      case _ => Err(TypeMismatch(key))
  }

  function RequiredInt(d: Dict, key: string): Result<int>
  {
    if key !in d.vals then Err(KeyError(key))
    else match d.vals[key]
      case VInt(i) => Ok(i)
      case _ => Err(TypeMismatch(key))
  }

  /** `data.get(key)` for an optional float: missing or None is None. */
  function OptionalField(d: Dict, key: string): Result<Option<real>>
  {
    match Get(d, key)
    case VNone => Ok(None)
    case VFloat(x) => Ok(Some(x))
    case VInt(i) => Ok(Some(i as real))
    case _ => Err(TypeMismatch(key))
  }

  datatype Result<T> = Ok(value: T) | Err(error: QuoteError)

  /** `v` is a number whose value is `x`. */
  predicate HoldsNumber(v: Value, x: real)
  {
    v == VFloat(x) || (v.VInt? && v.i as real == x)
  }

  /** `v` is what `data.get(key)` gave for an optional price `o`: None for
      None, its number otherwise. */
  predicate HoldsOptional(v: Value, o: Option<real>)
  {
    match o
    case None => v == VNone
    case Some(x) => HoldsNumber(v, x)
  }

  /** `StockQuote.from_dict`: the timestamp is read and parsed first, then
      the six other mandatory keys in declaration order. */
  function FromDict(d: Dict): (r: Result<StockQuote>)
    ensures r.Ok? ==> ValidQuote(r.value)
    ensures "timestamp" !in d.vals ==> r == Err(KeyError("timestamp"))
    ensures "timestamp" in d.vals && d.vals["timestamp"].VStr? && ParseIso(d.vals["timestamp"].s).None? ==>
      r == Err(InvalidIsoFormat(d.vals["timestamp"].s))
    ensures r.Ok? ==> forall k :: k in QuoteFields[..7] ==> k in d.vals
    ensures r.Ok? ==> (r.value.bidPrice.None? <==> Get(d, "bid_price") == VNone)
    ensures r.Ok? ==> (r.value.askPrice.None? <==> Get(d, "ask_price") == VNone)
    ensures r.Ok? ==> (r.value.high.None? <==> Get(d, "high") == VNone)
    ensures r.Ok? ==> (r.value.low.None? <==> Get(d, "low") == VNone)
  {
    match RequiredString(d, "timestamp")
    case Err(e) => Err(e)
    case Ok(text) =>
      match ParseIso(text)
      case None => Err(InvalidIsoFormat(text))
      case Some(ts) =>
        match (RequiredString(d, "symbol"), RequiredString(d, "company_name"),
               RequiredFloat(d, "current_price"), RequiredFloat(d, "change"),
               RequiredFloat(d, "percent_change"), RequiredInt(d, "volume"))
        case (Err(e), _, _, _, _, _) => Err(e)
        case (_, Err(e), _, _, _, _) => Err(e)
        case (_, _, Err(e), _, _, _) => Err(e)
        case (_, _, _, Err(e), _, _) => Err(e)
        case (_, _, _, _, Err(e), _) => Err(e)
        case (_, _, _, _, _, Err(e)) => Err(e)
        case (Ok(sym), Ok(name), Ok(price), Ok(chg), Ok(pct), Ok(vol)) =>
          match (OptionalField(d, "bid_price"), OptionalField(d, "ask_price"),
                 OptionalField(d, "high"), OptionalField(d, "low"))
          case (Err(e), _, _, _) => Err(e)
          case (_, Err(e), _, _) => Err(e)
          case (_, _, Err(e), _) => Err(e)
          case (_, _, _, Err(e)) => Err(e)
          case (Ok(bid), Ok(ask), Ok(hi), Ok(lo)) =>
            Ok(StockQuote(sym, name, price, chg, pct, vol, ts, bid, ask, hi, lo))
  }

  /** The timestamp and the other mandatory fields of a quote `from_dict`
      builds are the values the dict holds under their keys. */
  lemma FromDictMandatory(d: Dict)
    requires FromDict(d).Ok?
    ensures var q := FromDict(d).value;
      && "timestamp" in d.vals && d.vals["timestamp"].VStr?
      && ParseIso(d.vals["timestamp"].s) == Some(q.timestamp)
      && "symbol" in d.vals && d.vals["symbol"] == VStr(q.symbol)
      && "company_name" in d.vals && d.vals["company_name"] == VStr(q.companyName)
      && "volume" in d.vals && d.vals["volume"] == VInt(q.volume)
      && "current_price" in d.vals && HoldsNumber(d.vals["current_price"], q.currentPrice)
      && "change" in d.vals && HoldsNumber(d.vals["change"], q.change)
      && "percent_change" in d.vals && HoldsNumber(d.vals["percent_change"], q.percentChange)
  {
    var q := FromDict(d).value;
    FromDictReadsMandatory(d);
    RequiredStringHolds(d, "timestamp");
    RequiredStringHolds(d, "symbol");
    RequiredStringHolds(d, "company_name");
    RequiredFloatHolds(d, "current_price");
    RequiredFloatHolds(d, "change");
    RequiredFloatHolds(d, "percent_change");
  }

  /** What the reading helpers returned for a quote `from_dict` built. */
  lemma FromDictReadsMandatory(d: Dict)
    requires FromDict(d).Ok?
    ensures var q := FromDict(d).value;
      && RequiredString(d, "timestamp").Ok? && ParseIso(RequiredString(d, "timestamp").value) == Some(q.timestamp)
      && RequiredString(d, "symbol") == Ok(q.symbol)
      && RequiredString(d, "company_name") == Ok(q.companyName)
      && RequiredFloat(d, "current_price") == Ok(q.currentPrice)
      && RequiredFloat(d, "change") == Ok(q.change)
      && RequiredFloat(d, "percent_change") == Ok(q.percentChange)
      && RequiredInt(d, "volume") == Ok(q.volume)
  {
  }

  lemma RequiredStringHolds(d: Dict, key: string)
    requires RequiredString(d, key).Ok?
    ensures key in d.vals && d.vals[key] == VStr(RequiredString(d, key).value)
  {
  }

  lemma RequiredFloatHolds(d: Dict, key: string)
    requires RequiredFloat(d, key).Ok?
    ensures key in d.vals && HoldsNumber(d.vals[key], RequiredFloat(d, key).value)
  {
  }

  /** The optional prices of a quote `from_dict` builds are what `get`
      reads under their keys. */
  lemma FromDictOptionals(d: Dict)
    requires FromDict(d).Ok?
    ensures var q := FromDict(d).value;
      && HoldsOptional(Get(d, "bid_price"), q.bidPrice)
      && HoldsOptional(Get(d, "ask_price"), q.askPrice)
      && HoldsOptional(Get(d, "high"), q.high)
      && HoldsOptional(Get(d, "low"), q.low)
  {
  }

  lemma OptionalFieldOfFloat(d: Dict, key: string, o: Option<real>)
    requires Get(d, key) == OptionalFloat(o)
    ensures OptionalField(d, key) == Ok(o)
  {
    match o
    case None =>
    case Some(x) =>
  }

  /** The mandatory fields read back from any dict holding a quote's entries. */
  lemma MandatoryOfEntries(d: Dict, q: StockQuote, ts: string)
    requires d.vals == QuoteEntries(q, ts)
    ensures RequiredString(d, "timestamp") == Ok(ts)
    ensures RequiredString(d, "symbol") == Ok(q.symbol)
    ensures RequiredString(d, "company_name") == Ok(q.companyName)
    ensures RequiredFloat(d, "current_price") == Ok(q.currentPrice)
    ensures RequiredFloat(d, "change") == Ok(q.change)
    ensures RequiredFloat(d, "percent_change") == Ok(q.percentChange)
    ensures RequiredInt(d, "volume") == Ok(q.volume)
  {
    QuoteEntriesValues(q, ts);
  }

  lemma MandatoryOfToDict(q: StockQuote)
    requires ValidQuote(q)
    ensures RequiredString(ToDict(q), "timestamp") == Ok(IsoFormat(q.timestamp))
    ensures RequiredString(ToDict(q), "symbol") == Ok(q.symbol)
    ensures RequiredString(ToDict(q), "company_name") == Ok(q.companyName)
    ensures RequiredFloat(ToDict(q), "current_price") == Ok(q.currentPrice)
    ensures RequiredFloat(ToDict(q), "change") == Ok(q.change)
    ensures RequiredFloat(ToDict(q), "percent_change") == Ok(q.percentChange)
    ensures RequiredInt(ToDict(q), "volume") == Ok(q.volume)
  {
    MandatoryOfEntries(ToDict(q), q, IsoFormat(q.timestamp));
  }

  lemma OptionalsOfToDict(q: StockQuote)
    requires ValidQuote(q)
    ensures OptionalField(ToDict(q), "bid_price") == Ok(q.bidPrice)
    ensures OptionalField(ToDict(q), "ask_price") == Ok(q.askPrice)
    ensures OptionalField(ToDict(q), "high") == Ok(q.high)
    ensures OptionalField(ToDict(q), "low") == Ok(q.low)
  {
    var d := ToDict(q);
    QuoteEntriesValues(q, IsoFormat(q.timestamp));
    OptionalFieldOfFloat(d, "bid_price", q.bidPrice);
    OptionalFieldOfFloat(d, "ask_price", q.askPrice);
    OptionalFieldOfFloat(d, "high", q.high);
    OptionalFieldOfFloat(d, "low", q.low);
  }

  /** from_dict(to_dict(q)) == q. */
  lemma FromDictToDict(q: StockQuote)
    requires ValidQuote(q)
    ensures FromDict(ToDict(q)) == Ok(q)
  {
    IsoRoundTrip(q.timestamp);
    MandatoryOfToDict(q);
    OptionalsOfToDict(q);
  }

  /** A JSON document as `json.dumps` writes it: the text is abstracted to
      the dictionary it encodes, which `json.loads` gives back. */
  datatype JsonText = JsonText(doc: Dict)

  function ToJson(q: StockQuote): (j: JsonText)
    requires ValidQuote(q)
    ensures j.doc.keys == QuoteFields
  {
    JsonText(ToDict(q))
  }

  function FromJson(j: JsonText): Result<StockQuote>
  {
    FromDict(j.doc)
  }

  /** `to_redis_value` is `to_json`. */
  function ToRedisValue(q: StockQuote): (j: JsonText)
    requires ValidQuote(q)
    ensures j == ToJson(q)
  {
    ToJson(q)
  }

  /** `from_redis_value` is `from_json`. */
  function FromRedisValue(j: JsonText): (r: Result<StockQuote>)
    ensures r == FromJson(j)
  {
    FromJson(j)
  }

  /** A quote stored in Redis reads back unchanged. */
  lemma RedisRoundTrip(q: StockQuote)
    requires ValidQuote(q)
    ensures FromRedisValue(ToRedisValue(q)) == Ok(q)
    ensures FromJson(ToJson(q)) == Ok(q)
  {
    FromDictToDict(q);
  }
}
