# Crypto dashboard pages: a Dafny model of the fetch, chart and prediction logic

This project models the decision logic of the two per-asset pages of a
Streamlit crypto dashboard, `students/bitcoin.py` and `students/solana.py`.
The two files are copies of each other apart from the prediction call, so one
model serves both:

- **Kraken OHLC fetch** (`get_coin_history_kraken`): the request for daily
  candles since `now - days * 86400`, then normalisation of Kraken's JSON
  answer. The records are read from the *first* key of `result`. Each record
  `ts, o, h, l, c, *_` becomes one candle. Any failure (transport error, 4xx/5xx
  status, undecodable body, wrong payload shape, short record, a price that
  does not parse) turns the whole call into `None`.
- **Chart preparation** (`plot_candlestick`): no figure for missing or empty
  data. Otherwise the candles are sorted by date, each gets one x-axis
  category, and the tick interval is 1 for the 7-day range and 3 otherwise.
- **Prediction calls** (`predict_bitcoin`, `predict_solana`): the fixed
  request, and how the outcome of the HTTP call maps to the returned value
  (a number or a message string). The page then applies its
  `isinstance(prediction, (int, float))` test.

Modules, one per concern:

| file | module | what it holds |
|---|---|---|
| wrappers.dfy | `Wrappers` | `Option` and `Result` |
| json.dfy | `Json` | decoded JSON values, dict lookup and key order as Python builds them |
| python.dfy | `Python` | the Python built-ins applied to JSON values: iteration, star-unpacking, `float()`, `utcfromtimestamp()` |
| http.dfy | `Http` | requests, response bodies, call outcomes, `raise_for_status` |
| text.dfy | `Text` | `str(int)` and its inverse |
| kraken.dfy | `Kraken` | the OHLC request and normalisation |
| chart.dfy | `Chart` | sorting and the figure decisions |
| prediction.dfy | `Prediction` | the two prediction mappers |
| page.dfy | `Page` | the two pages composed from the above |

Inputs the model cannot compute are passed in as parameters:

- The clock reading (`time.time()`) is a `real`.
- Each HTTP call is a `send: Request -> Outcome` function. `Outcome` is
  `Timeout | Failed | Response(status, text, body)`.
- Parsing a decimal string as a float, and turning a number of seconds into a
  calendar instant, are the two fields of `Python.Builtins`. Both are abstract
  partial functions.
- The `strftime("%b %d")` date label is a function `int -> string`.

A JSON object is kept as its list of members in document order. Lookup takes
the last member with the key, and the first key is the key of the first
member. That is exactly how `json.loads` builds a Python dict.

Three behaviours of the code that a reader might not expect, all modelled as
written:

- `get_coin_history_kraken` does not sort the candles; only
  `plot_candlestick` sorts them.
- `predict_bitcoin` has no timeout handler: a timeout is reported as
  `"Error: …"` like any other exception (`Prediction.BitcoinTimeoutIsGenericError`).
  Only `predict_solana` has a distinct timeout message.
- The fetch returns `None` on any failure, and that value is cached like any
  other return value (the cache itself is left out, see below).

## Model

| member | source | states |
|---|---|---|
| Kraken.HistoryRequest | students/bitcoin.py:32-38 | the request goes to Kraken's OHLC endpoint with a 10-second timeout and the parameters pair, interval and since; since lies `days * 86400` seconds before now, so strictly before the clock for a positive range |
| Kraken.RecordsToCandles | students/bitcoin.py:47 | records that cannot be iterated (None, a number, a bool) give None; records held in a str or a dict give an empty series when there is nothing to iterate and None otherwise |
| Python.UtcFromTimestamp | students/bitcoin.py:50 | only an int, float or bool can be converted to a date, and such a value converts exactly as the platform's timestamp conversion does on its numeric value |
| Http.RaisesForStatus | students/bitcoin.py:39 | `raise_for_status` rejects exactly the 4xx and 5xx statuses, never 200 |
| Kraken.EpochSeconds | students/bitcoin.py:32 | `int(time.time())` truncates toward zero: the result is within one second of the clock, below it for a non-negative clock |
| Kraken.SinceBound | students/bitcoin.py:32-33 | the window reaches back exactly `days * 86400` seconds, and `since` is before `now` exactly when `days` is positive |
| Page.SelectableRanges | students/bitcoin.py:163 | every range the selector offers (7, 30, 60; default 30) asks for data strictly before now, and only the 7-day range labels every category |
| Kraken.CandleOf | students/bitcoin.py:48-55 | a record gives a candle exactly when it unpacks into at least five items, the first converts to an instant and the next four convert with `float()`; date, open, high, low and close come from positions 0 to 4 |
| Kraken.Candles | students/bitcoin.py:46-57 | all or nothing: a result exists exactly when every record converts; it then has one candle per record, candle i from record i, in upstream order |
| Kraken.Normalize | students/solana.py:42-57 | no records under the first key gives None; when they are a list, the result exists exactly when every record converts, with length and order preserved |
| Kraken.PairRecords | students/bitcoin.py:43-44 | the records can only come from an object whose `result` member is a non-empty object; an empty `result` object gives None; a non-empty one gives the value of its first key (the last member carrying that key) |
| Kraken.FirstKeyWins | students/bitcoin.py:43-44 | in any payload with a `result` object, whatever other top-level members it has, the records are read from the first key of `result`, whatever its name, provided that key is not repeated; later members with other keys, even one named after the requested pair, are ignored |
| Kraken.TrailingFieldsIgnored | students/bitcoin.py:48 | fields after the fifth never change the candle a record gives |
| Kraken.OneBadRecordSpoilsAll | students/solana.py:48-60 | one record with fewer than five fields, or one price `float()` rejects, makes the whole result None and never a partial list |
| Kraken.NoRecordsNoCandles | students/bitcoin.py:46-57 | an empty record list gives an empty series, not None |
| Kraken.TextOrDictRecordFails | students/bitcoin.py:48-50 | a record that is a string or a dict never gives a candle: with fewer than five characters or keys the unpacking fails, and otherwise its first item is a string that `utcfromtimestamp` rejects |
| Kraken.OnlyListsYieldCandles | students/bitcoin.py:43-57 | a non-empty series can only come from a list of records under the first key |
| Kraken.RecordGivesCandle | students/bitcoin.py:48-55 | a record `[ts, "o", "h", "l", "c", ...]` whose parts convert gives the candle of its first five fields |
| Kraken.TwoRecordExample | students/bitcoin.py:42-57 | two records echoed under "XXBTZUSD", in an envelope with an `error` member first and a `last` member after the records, give two candles, in the order sent |
| Kraken.FetchHistory | students/bitcoin.py:37-60 | a series is returned only after a response whose status `raise_for_status` accepts and whose body decodes; for every such response the result is the normalisation of that body (so an empty record list gives `[]`) |
| Chart.Insert | students/bitcoin.py:68 | inserting into a date-sorted series keeps it sorted and adds exactly the one candle |
| Chart.SortByDate | students/bitcoin.py:68 | `sort_values("date")` gives a date-ordered permutation of the candles |
| Chart.TickInterval | students/bitcoin.py:72 | the tick interval is 1 exactly when `days == 7`, and 3 for every other value |
| Chart.PlotCandlestick | students/solana.py:64-72 | no figure exactly for None or empty data; otherwise a date-sorted permutation of the input with one category per candle, labelled from that candle's date, a tick interval of 1 exactly for 7 days and 3 for every other range, and the title |
| Chart.Title | students/bitcoin.py:92 | the title is the symbol, a space, the range as decimal text and "-Day Candlestick Chart" |
| Chart.TitleNamesRange | students/bitcoin.py:92 | two ranges give the same title for one symbol only when they are the same range |
| Prediction.PredictBitcoin | students/bitcoin.py:137-146 | the four outcomes: the field's value on 200, "No prediction available" when it is absent, "API Error: <code>" for any other status, "Error: …" for any exception |
| Prediction.BitcoinNumberIff | students/bitcoin.py:139-146 | the result is a number exactly when the answer is 200 with a JSON object whose `predicted_next_day_high_usd` is a number, and it is then that number |
| Prediction.BitcoinTimeoutIsGenericError | students/bitcoin.py:145-146 | a timeout gives the same "Error: …" message as any other exception |
| Prediction.BitcoinApiErrorNamesStatus | students/bitcoin.py:144 | two error statuses give the same message only when they are the same status |
| Prediction.PredictSolana | students/solana.py:150-162 | the result is always a float or a str: the timeout message, "Error: …" for any other exception (including an undecodable body, `.get` on a non-object and a failing `float()`), "API Error <code>: <text>", "No prediction available" for a missing or null field, or `float()` of the field |
| Prediction.SolanaNumberIff | students/solana.py:152-157 | the result is a number exactly when the answer is 200 with a JSON object whose `predicted_next_day_high` is present, not null and accepted by `float()` |
| Prediction.SolanaTimeoutIff | students/solana.py:159-160 | the "server is waking up" message is returned for a timeout and for no other outcome |
| Prediction.ErrorMessageIsNotTimeout | students/solana.py:161-162 | an "Error: …" message is never the timeout message |
| Prediction.SolanaRequestFixed | students/solana.py:139-151 | the request always carries the same nine distinct numeric parameters |
| Page.ShowPrediction | students/solana.py:173-176 | success is shown exactly when the prediction is an int or float (a bool included); otherwise Bitcoin shows an info notice and Solana an error; every notice carries the prediction unchanged |
| Page.PredictionSuccessIff | students/bitcoin.py:154-160 | pressing predict shows success exactly when the asset's endpoint answered 200 with a usable prediction field |
| Page.PredictionView | students/bitcoin.py:154-160 | success is shown only after a 200 answer; a Solana timeout shows the waking-up message as an error; a Bitcoin exception shows its "Error: …" text as an info notice; every notice, success or not, carries the asset's prediction for that answer ("API Error …", "No prediction available" and the like included) |
| Page.HistoryView | students/bitcoin.py:163-170 | a transport failure, a 4xx/5xx status, an undecodable body or an empty record list all show "Unable to load <asset> data.", and that is the only message an unavailable chart ever shows (a payload that fails to normalise included); a drawn chart is non-empty and has the tick interval of the range; conversely an accepted, decoded answer whose records all convert into a non-empty series is drawn as that series' candlestick chart |
| Page.HistoryPanel | students/bitcoin.py:166-170 | `None` and an empty list are both shown as "Unable to load <asset> data."; any other data is plotted |
| Page.PlottedChartHoldsEveryRecord | students/solana.py:180-184 | a drawn chart comes from an accepted, decodable response whose records were a list and all converted, and it holds every one of those candles in date order |
| Json.Get | students/solana.py:154 | a dict lookup finds a value exactly when the key occurs, and it is the value of the last member with that key |
| Json.Keys | students/bitcoin.py:43 | the dict's keys are exactly the keys that occur, each once; the first is the first member's key |
| Json.KeysFollowFirstOccurrence | students/bitcoin.py:43 | the keys come in the order of their first occurrence among the members |
| Json.FirstIndex | students/bitcoin.py:43 | the position found carries the key and no earlier member does |
| Python.ToFloat | students/solana.py:156 | `float()` accepts every int, float and bool, and rejects None, lists and dicts; a str converts exactly when the platform's float parser accepts it, to the parsed value |
| Python.Iterate | students/bitcoin.py:47 | a list iterates over its items, a str over its one-character strs, a dict over its distinct keys in first-occurrence order; None, numbers and bools cannot be iterated |
| Python.UnpackFive | students/bitcoin.py:48 | star-unpacking into five names needs at least five items; for a list they are its items, a str needs five characters and a dict five distinct keys; None, numbers and bools never unpack |
| Text.IntRoundTrip | students/bitcoin.py:144 | `str(status)` loses nothing: reading the text back gives the status |
| Text.IntToStringInjective | students/solana.py:158 | distinct status codes render as distinct texts |

## Left out

- The network itself (`requests.get`, timeouts, connection handling). Each call is an `Outcome` input produced by a `send` function.
- `@st.cache_data(ttl=60)` and `@st.cache_data(ttl=300)`: Streamlit library behaviour, not visible here. Note that the fetch catches every exception and returns `None`, so a failure is cached for 300 seconds like a success.
- `get_crypto_prices` in both files: an unused network wrapper that returns JSON or `None`.
- `app/main.py`: navigation, CSS, session-state routing and the price ticker, which is presentation.
- `students/ethereum.py` and `students/xrp.py` are not part of this model.
- Streamlit output (`st.image`, `st.header`, `st.spinner`, `st.plotly_chart`) and the `st.error("Error loading Kraken data: …")` notice the fetch shows before returning `None`.
- Plotly and pandas styling (colours, margins, fonts, height, hover), and how Plotly places candles that share a category label.
- The `strftime("%b %d")` label text and the `utcfromtimestamp` calendar conversion. The label is a function parameter, and the conversion is the abstract `Builtins.fromTimestamp`.
- Floating-point semantics: `float()` on a string is the abstract `Builtins.parseFloat`, and prices are `real`. `Python.ToFloat` does not model the OverflowError that `float()` raises for ints beyond the double range.
- The text of the `float()` error for a string quotes it as `'s'` and does not apply Python's `repr` escaping.
- The success text formatting `{prediction:,.2f}`.
- Chart.SortByDate: equal-date candles keep their input order (a stable sort), whereas pandas' default quicksort may order them either way. The contract states only what both guarantee: date order and the same candles.
