/**
 * `get_coin_history_kraken`: the request for daily OHLC candles covering the
 * last `days` days, and the normalisation of Kraken's answer into a list of
 * candles. Every failure along the way (transport, HTTP status, JSON decoding,
 * payload shape, a short record, a price that does not parse) turns the whole
 * call into None; the caller never sees a partial list.
 */
module Kraken {

  import opened Wrappers
  import opened Json
  import opened Python
  import opened Http

  const SecondsPerDay: int := 24 * 60 * 60
  const OhlcUrl: string := "https://api.kraken.com/0/public/OHLC"
  /** Timeout of the OHLC request, in seconds. */
  const OhlcTimeout: nat := 10
  /** `interval=1440`: one candle per day. */
  const DailyInterval: int := 1440

  /** One normalised record: `date` is the instant `utcfromtimestamp` gives for its timestamp. */
  datatype Candle = Candle(date: int, open: real, high: real, low: real, close: real)

  /** `int(time.time())`: the clock reading truncated toward zero. */
  function EpochSeconds(clock: real): (now: int)
    ensures clock >= 0.0 ==> now as real <= clock < now as real + 1.0
    ensures clock < 0.0 ==> now as real - 1.0 < clock <= now as real
  {
    if clock >= 0.0 then clock.Floor else -((-clock).Floor)
  }

  /** The `since` bound of the request: `days` whole days before `now`. */
  function SinceBound(now: int, days: int): (since: int)
    ensures now - since == days * SecondsPerDay
    ensures since < now <==> days > 0
  {
    now - days * SecondsPerDay
  }

  /** The request `get_coin_history_kraken(pair, interval, days)` sends at clock reading `clock`. */
  function HistoryRequest(pair: string, interval: int, days: int, clock: real): (req: Request)
    ensures req.url == OhlcUrl && req.timeout == OhlcTimeout
    ensures |req.params| == 3 && req.params[0] == ("pair", Str(pair)) && req.params[1] == ("interval", Int(interval))
    ensures req.params[2].0 == "since" && req.params[2].1.Int?
    ensures EpochSeconds(clock) - req.params[2].1.i == days * SecondsPerDay
    ensures clock >= 0.0 && days > 0 ==> (req.params[2].1.i as real) < clock
  {
    Request(OhlcUrl,
            [("pair", Str(pair)), ("interval", Int(interval)),
             ("since", Int(SinceBound(EpochSeconds(clock), days)))],
            OhlcTimeout)
  }

  /** `ts, o, h, l, c, *_ = entry` followed by the conversions of the dict literal. */
  function CandleOf(py: Builtins, entry: Value): (r: Option<Candle>)
    ensures r.Some? <==>
              && UnpackFive(entry).Some?
              && UtcFromTimestamp(py, UnpackFive(entry).value[0]).Some?
              && (forall k :: 1 <= k <= 4 ==> ToFloat(py, UnpackFive(entry).value[k]).Ok?)
    ensures r.Some? ==>
              var f := UnpackFive(entry).value;
              && r.value.date == UtcFromTimestamp(py, f[0]).value
              && r.value.open == ToFloat(py, f[1]).value
              && r.value.high == ToFloat(py, f[2]).value
              && r.value.low == ToFloat(py, f[3]).value
              && r.value.close == ToFloat(py, f[4]).value
  {
    match UnpackFive(entry)
    case None => None
    case Some(f) =>
      match (UtcFromTimestamp(py, f[0]), ToFloat(py, f[1]), ToFloat(py, f[2]), ToFloat(py, f[3]), ToFloat(py, f[4]))
      case (Some(t), Ok(o), Ok(h), Ok(l), Ok(c)) => Some(Candle(t, o, h, l, c))
      case _ => None
  }

  /** The `for entry in ohlc` loop: one candle per record, in record order, or
      None as soon as any record fails. */
  function Candles(py: Builtins, entries: seq<Value>): (r: Option<seq<Candle>>)
    ensures r.Some? <==> forall i :: 0 <= i < |entries| ==> CandleOf(py, entries[i]).Some?
    ensures r.Some? ==> |r.value| == |entries|
    ensures r.Some? ==> forall i :: 0 <= i < |entries| ==> r.value[i] == CandleOf(py, entries[i]).value
  {
    if |entries| == 0 then Some([])
    else
      var front := entries[..|entries| - 1];
      match Candles(py, front)
      case None =>
        assert exists i :: 0 <= i < |front| && CandleOf(py, front[i]).None?;
        None
      case Some(cs) =>
        assert forall i :: 0 <= i < |front| ==> front[i] == entries[i];
        match CandleOf(py, entries[|entries| - 1])
        case None => None
        case Some(c) => Some(cs + [c])
  }

  /** `data["result"][list(data["result"].keys())[0]]`: the value under the first
      key of the `result` object, whatever that key is; None when any step raises. */
  function PairRecords(data: Value): (r: Option<Value>)
    ensures r.Some? ==> data.Obj? && HasKey(data.members, "result")
                        && Get(data.members, "result").value.Obj?
                        && |Get(data.members, "result").value.members| > 0
    ensures data.Obj? && Get(data.members, "result") == Some(Obj([])) ==> r.None?
    ensures data.Obj? && Get(data.members, "result").Some? && Get(data.members, "result").value.Obj?
            && |Get(data.members, "result").value.members| > 0 ==>
              var ms := Get(data.members, "result").value.members;
              r == Get(ms, ms[0].0)
  {
    if !data.Obj? then None
    else match Get(data.members, "result")
      case Some(Obj(ms)) =>
        if |ms| == 0 then None else Get(ms, Keys(ms)[0])
      case _ => None
  }

  /** The body of the `try` block after `response.json()`. */
  function Normalize(py: Builtins, data: Value): (r: Option<seq<Candle>>)
    ensures PairRecords(data).None? ==> r.None?
    ensures PairRecords(data).Some? && PairRecords(data).value.List? ==>
              var rows := PairRecords(data).value.items;
              && (r.Some? <==> forall i :: 0 <= i < |rows| ==> CandleOf(py, rows[i]).Some?)
              && (r.Some? ==> |r.value| == |rows|
                              && forall i :: 0 <= i < |rows| ==> r.value[i] == CandleOf(py, rows[i]).value)
  {
    match PairRecords(data)
    case None => None
    case Some(records) => RecordsToCandles(py, records)
  }

  /** `for entry in ohlc: ...` over whatever value the pair key holds. */
  function RecordsToCandles(py: Builtins, records: Value): (r: Option<seq<Candle>>)
    ensures !(records.List? || records.Str? || records.Obj?) ==> r.None?
    ensures records.Str? || records.Obj? ==>
              (r.Some? <==> |Iterate(records).value| == 0) && (r.Some? ==> r.value == [])
  {
    match Iterate(records)
    case None => None
    case Some(rows) =>
      // a str yields one-character strs and a dict yields its keys: the first
      // such row already fails to unpack into a candle
      if (records.Str? || records.Obj?) && |rows| > 0 then
        TextOrDictRecordFails(py, rows[0]);
        Candles(py, rows)
      else
        Candles(py, rows)
  }

  /** The whole call: send the request, reject an error status or an undecodable
      body, then normalise. */
  function FetchHistory(pair: string, interval: int, days: int, clock: real,
                        send: Request -> Outcome, py: Builtins): (r: Option<seq<Candle>>)
    ensures r.Some? ==>
              var o := send(HistoryRequest(pair, interval, days, clock));
              && o.Response? && !RaisesForStatus(o.status) && o.body.Decoded?
              && r == Normalize(py, o.body.value)
    ensures var o := send(HistoryRequest(pair, interval, days, clock));
            o.Response? && !RaisesForStatus(o.status) && o.body.Decoded? ==>
              r == Normalize(py, o.body.value)
  {
    match send(HistoryRequest(pair, interval, days, clock))
    case Timeout(_) => None
    case Failed(_) => None
    case Response(status, _, body) =>
      if RaisesForStatus(status) then None
      else match body
        case Undecodable(_) => None
        case Decoded(data) => Normalize(py, data)
  }

  /** Kraken echoes the pair under a key of its own choosing ("XXBTZUSD" for a
      request of "XBTUSD"): the records are read from the first key of `result`,
      whatever its name, and any later member, even one named after the
      requested pair, is ignored, as long as the first key is not repeated
      (a repeat would supply the records instead). */
  lemma FirstKeyWins(py: Builtins, data: Value, key: string, records: Value, rest: seq<(string, Value)>)
    requires data.Obj? && Get(data.members, "result") == Some(Obj([(key, records)] + rest))
    requires forall j :: 0 <= j < |rest| ==> rest[j].0 != key
    ensures Normalize(py, data) == RecordsToCandles(py, records)
  {
  }

  /** Extra fields after the fifth (Kraken sends vwap, volume and count) never
      change the candle a record gives. */
  lemma TrailingFieldsIgnored(py: Builtins, fields: seq<Value>, extra: seq<Value>)
    requires |fields| >= 5
    ensures CandleOf(py, List(fields + extra)) == CandleOf(py, List(fields[..5]))
  {
  }

  /** One record with fewer than five fields, or one price `float()` rejects,
      loses the whole series: the result is None, never the candles before it. */
  lemma OneBadRecordSpoilsAll(py: Builtins, data: Value, rows: seq<Value>, i: int)
    requires PairRecords(data) == Some(List(rows))
    requires 0 <= i < |rows| && rows[i].List?
    requires |rows[i].items| < 5 || (exists k :: 1 <= k <= 4 && ToFloat(py, rows[i].items[k]).Err?)
    ensures Normalize(py, data).None?
  {
  }

  /** An empty record list is not an error: it yields an empty series. */
  lemma NoRecordsNoCandles(py: Builtins, data: Value)
    requires PairRecords(data) == Some(List([]))
    ensures Normalize(py, data) == Some([])
  {
  }

  /** A record that is a string or a dict is iterated character by character or
      key by key: with fewer than five items the unpacking fails, and otherwise
      its first item is a string, which `utcfromtimestamp` rejects. */
  lemma TextOrDictRecordFails(py: Builtins, entry: Value)
    requires entry.Str? || entry.Obj?
    ensures CandleOf(py, entry).None?
  {
  }

  /** Only a list of records can produce a non-empty series: records held in a
      string or a dict make the call fail unless they are empty. */
  lemma OnlyListsYieldCandles(py: Builtins, data: Value)
    requires Normalize(py, data).Some? && |Normalize(py, data).value| > 0
    ensures PairRecords(data).Some? && PairRecords(data).value.List?
  {
  }

  /** A Kraken record `[ts, "o", "h", "l", "c", ...]` whose parts convert gives
      the candle built from its first five fields. */
  lemma RecordGivesCandle(py: Builtins, ts: int, o: string, h: string, l: string, c: string,
                          extra: seq<Value>, date: int, ov: real, hv: real, lv: real, cv: real)
    requires py.fromTimestamp(ts as real) == Some(date)
    requires py.parseFloat(o) == Some(ov) && py.parseFloat(h) == Some(hv)
    requires py.parseFloat(l) == Some(lv) && py.parseFloat(c) == Some(cv)
    ensures CandleOf(py, List([Int(ts), Str(o), Str(h), Str(l), Str(c)] + extra))
            == Some(Candle(date, ov, hv, lv, cv))
  {
  }

  /** Two daily records echoed under "XXBTZUSD" in Kraken's usual envelope
      (an empty `error` list, then `result` with a trailing `last` member) give
      two candles in the order they were sent. */
  lemma TwoRecordExample(py: Builtins, r1: Value, r2: Value)
    requires py.fromTimestamp(1700000000.0) == Some(1700000000)
    requires py.fromTimestamp(1700086400.0) == Some(1700086400)
    requires py.parseFloat("60000") == Some(60000.0) && py.parseFloat("61000") == Some(61000.0)
    requires py.parseFloat("59500") == Some(59500.0) && py.parseFloat("60500") == Some(60500.0)
    requires py.parseFloat("62000") == Some(62000.0) && py.parseFloat("61800") == Some(61800.0)
    requires r1 == List([Int(1700000000), Str("60000"), Str("61000"), Str("59500"), Str("60500"), Str("60100"), Str("12.5"), Int(340)])
    requires r2 == List([Int(1700086400), Str("60500"), Str("62000"), Str("60000"), Str("61800"), Str("61200"), Str("9.1"), Int(290)])
    ensures Normalize(py, Obj([("error", List([])),
                               ("result", Obj([("XXBTZUSD", List([r1, r2])), ("last", Int(1700086400))]))]))
            == Some([Candle(1700000000, 60000.0, 61000.0, 59500.0, 60500.0),
                     Candle(1700086400, 60500.0, 62000.0, 60000.0, 61800.0)])
  {
    var c1 := Candle(1700000000, 60000.0, 61000.0, 59500.0, 60500.0);
    var c2 := Candle(1700086400, 60500.0, 62000.0, 60000.0, 61800.0);
    RecordGivesCandle(py, 1700000000, "60000", "61000", "59500", "60500",
                      [Str("60100"), Str("12.5"), Int(340)], 1700000000, 60000.0, 61000.0, 59500.0, 60500.0);
    RecordGivesCandle(py, 1700086400, "60500", "62000", "60000", "61800",
                      [Str("61200"), Str("9.1"), Int(290)], 1700086400, 60500.0, 62000.0, 60000.0, 61800.0);
    var rows := [r1, r2];
    var cs := Candles(py, rows).value;
    assert cs == [c1, c2];
    var data := Obj([("error", List([])),
                     ("result", Obj([("XXBTZUSD", List(rows)), ("last", Int(1700086400))]))]);
    assert Get(data.members, "result") == Some(Obj([("XXBTZUSD", List(rows)), ("last", Int(1700086400))]));
    assert [("XXBTZUSD", List(rows))] + [("last", Int(1700086400))]
           == [("XXBTZUSD", List(rows)), ("last", Int(1700086400))];
    FirstKeyWins(py, data, "XXBTZUSD", List(rows), [("last", Int(1700086400))]);
  }
}
