/**
 * `show_bitcoin_page` and `show_solana_page`: the two asset pages compose the
 * fetch, the chart and the prediction call identically, except for the asset's
 * name, its Kraken pair, its prediction mapper and the kind of notice a failed
 * prediction is shown in.
 */
module Page {

  import opened Wrappers
  import opened Json
  import opened Python
  import opened Http
  import opened Kraken
  import opened Chart
  import opened Prediction

  datatype Asset = Bitcoin | Solana {

    function Name(): string {
      match this
      case Bitcoin => "Bitcoin"
      case Solana => "Solana"
    }

    /** The Kraken pair the page asks for. */
    function Pair(): string {
      match this
      case Bitcoin => "XBTUSD"
      case Solana => "SOLUSD"
    }

    function PredictionRequest(): Request {
      match this
      case Bitcoin => BitcoinRequest
      case Solana => SolanaRequest
    }

    /** The asset's prediction function applied to the outcome of its request. */
    function Predict(py: Builtins, o: Outcome): Value {
      match this
      case Bitcoin => PredictBitcoin(o)
      case Solana => PredictSolana(py, o)
    }
  }

  /** The range selector's options; index 1, 30 days, is preselected. */
  const DayChoices: seq<int> := [7, 30, 60]
  const DefaultDays: int := DayChoices[1]

  /** What the page shows after the predict button: `st.success`, or the value as
      text in `st.info` (Bitcoin) or `st.error` (Solana). */
  datatype Notice = Success(prediction: Value) | Info(shown: Value) | Alert(shown: Value)

  /** The chart region: a figure, or the "Unable to load ... data." error. */
  datatype Panel = Plotted(chart: Figure) | Unavailable(message: string)

  /** `isinstance(prediction, (int, float))` decides between success and failure. */
  function ShowPrediction(asset: Asset, prediction: Value): (n: Notice)
    ensures n.Success? <==> IsNumber(prediction)
    ensures n.Success? ==> n.prediction == prediction
    ensures !n.Success? ==> n.shown == prediction
    ensures n.Alert? ==> asset == Solana
    ensures n.Info? ==> asset == Bitcoin
  {
    if IsNumber(prediction) then Success(prediction)
    else match asset
      case Bitcoin => Info(prediction)
      case Solana => Alert(prediction)
  }

  /** Pressing "Predict Next-Day High": the request goes out through `send`. */
  function PredictionView(asset: Asset, send: Request -> Outcome, py: Builtins): (n: Notice)
    ensures n.Success? ==> send(asset.PredictionRequest()).Response?
                           && send(asset.PredictionRequest()).status == 200
    ensures n.Success? ==> n.prediction == asset.Predict(py, send(asset.PredictionRequest()))
    ensures !n.Success? ==> n.shown == asset.Predict(py, send(asset.PredictionRequest()))
    ensures asset == Solana && send(SolanaRequest).Timeout? ==> n == Alert(Str(TimeoutMessage))
    ensures asset == Bitcoin && !send(BitcoinRequest).Response? ==>
              n == Info(Str(ErrorMessage(send(BitcoinRequest).detail)))
  {
    ShowPrediction(asset, asset.Predict(py, send(asset.PredictionRequest())))
  }

  /** `if data: plot ... else: st.error(...)`: None and an empty list look the same. */
  function HistoryPanel(asset: Asset, data: Option<seq<Candle>>, days: int,
                        dateLabel: int -> string): (p: Panel)
    ensures p.Unavailable? <==> data.None? || |data.value| == 0
    ensures p.Unavailable? ==> p.message == "Unable to load " + asset.Name() + " data."
    ensures p.Plotted? ==> Some(p.chart) == PlotCandlestick(data, asset.Name(), days, dateLabel)
  {
    match data
    case Some(cs) =>
      if |cs| == 0 then Unavailable("Unable to load " + asset.Name() + " data.")
      else Plotted(PlotCandlestick(data, asset.Name(), days, dateLabel).value)
    case None => Unavailable("Unable to load " + asset.Name() + " data.")
  }

  /** The chart part of the page for the selected range at clock reading `clock`. */
  function HistoryView(asset: Asset, days: int, clock: real, send: Request -> Outcome,
                       py: Builtins, dateLabel: int -> string): (p: Panel)
    ensures var o := send(HistoryRequest(asset.Pair(), DailyInterval, days, clock));
            !o.Response? || RaisesForStatus(o.status) || o.body.Undecodable? ==>
              p == Unavailable("Unable to load " + asset.Name() + " data.")
    ensures var o := send(HistoryRequest(asset.Pair(), DailyInterval, days, clock));
            o.Response? && !RaisesForStatus(o.status) && o.body.Decoded?
            && PairRecords(o.body.value) == Some(List([])) ==>
              p == Unavailable("Unable to load " + asset.Name() + " data.")
    ensures p.Plotted? ==> p.chart.dtick == TickInterval(days) && |p.chart.candles| > 0
    ensures p.Unavailable? ==> p.message == "Unable to load " + asset.Name() + " data."
    ensures var o := send(HistoryRequest(asset.Pair(), DailyInterval, days, clock));
            o.Response? && !RaisesForStatus(o.status) && o.body.Decoded?
            && Normalize(py, o.body.value).Some? && |Normalize(py, o.body.value).value| > 0 ==>
              p == Plotted(PlotCandlestick(Normalize(py, o.body.value), asset.Name(), days, dateLabel).value)
  {
    HistoryPanel(asset, FetchHistory(asset.Pair(), DailyInterval, days, clock, send, py), days, dateLabel)
  }

  /** The page reports success exactly when the asset's endpoint answered 200
      with a usable prediction field; every other outcome is shown as a notice. */
  lemma PredictionSuccessIff(asset: Asset, send: Request -> Outcome, py: Builtins)
    ensures var o := send(asset.PredictionRequest());
            var field := if asset == Bitcoin then BitcoinField else SolanaField;
            PredictionView(asset, send, py).Success? <==>
              && o.Response? && o.status == 200
              && o.body.Decoded? && o.body.value.Obj?
              && HasKey(o.body.value.members, field)
              && (asset == Bitcoin ==> IsNumber(Get(o.body.value.members, field).value))
              && (asset == Solana ==> !Get(o.body.value.members, field).value.Null?
                                      && ToFloat(py, Get(o.body.value.members, field).value).Ok?)
  {
  }

  /** Every range the selector offers asks for data strictly before now, and only
      the 7-day range labels every category. */
  lemma SelectableRanges(clock: real)
    ensures forall d :: d in DayChoices ==> SinceBound(EpochSeconds(clock), d) < EpochSeconds(clock)
    ensures forall d :: d in DayChoices ==> (TickInterval(d) == 1 <==> d == 7)
    ensures DefaultDays == 30
  {
  }

  /** A chart is drawn only from a successful, decodable OHLC response whose
      records all converted; it holds every one of those candles, in date order. */
  lemma PlottedChartHoldsEveryRecord(asset: Asset, days: int, clock: real, send: Request -> Outcome,
                                     py: Builtins, dateLabel: int -> string)
    requires HistoryView(asset, days, clock, send, py, dateLabel).Plotted?
    ensures var o := send(HistoryRequest(asset.Pair(), DailyInterval, days, clock));
            var chart := HistoryView(asset, days, clock, send, py, dateLabel).chart;
            && o.Response? && !RaisesForStatus(o.status) && o.body.Decoded?
            && PairRecords(o.body.value).Some? && PairRecords(o.body.value).value.List?
            && Normalize(py, o.body.value).Some?
            && |chart.candles| == |PairRecords(o.body.value).value.items| > 0
            && SortedByDate(chart.candles)
            && multiset(chart.candles) == multiset(Normalize(py, o.body.value).value)
  {
    var o := send(HistoryRequest(asset.Pair(), DailyInterval, days, clock));
    OnlyListsYieldCandles(py, o.body.value);
  }
}
