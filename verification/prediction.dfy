/**
 * `predict_bitcoin` and `predict_solana`: the fixed request each page sends to
 * its model-serving endpoint, and the mapping of the call's outcome to the
 * Python value the function returns, a number or a message string.
 */
module Prediction {

  import opened Json
  import opened Python
  import opened Http
  import opened Text

  const BitcoinUrl: string := "https://at3-bitcoin-latest-2.onrender.com/predict/bitcoin"
  const BitcoinTimeout: nat := 30
  const BitcoinField: string := "predicted_next_day_high_usd"

  const SolanaUrl: string := "https://solana-fastapi.onrender.com/predict"
  const SolanaTimeout: nat := 120
  const SolanaField: string := "predicted_next_day_high"

  const NoPrediction: string := "No prediction available"
  /** Written in two parts only so that its first characters are visible to the verifier. */
  const TimeoutMessage: string := "API timeout" + " - server is waking up, please try again"

  /** The nine hard-coded example features the Solana endpoint is queried with. */
  const SolanaFeatures: seq<(string, Value)> := [
    ("open", Float(180.0)),
    ("high", Float(185.0)),
    ("low", Float(178.0)),
    ("close", Float(183.0)),
    ("volume", Float(5000000.0)),
    ("marketCap", Float(85000000000.0)),
    ("price_diff", Float(7.0)),
    ("daily_range", Float(7.0)),
    ("SMA_7", Float(181.0))
  ]

  const BitcoinRequest: Request := Request(BitcoinUrl, [], BitcoinTimeout)
  const SolanaRequest: Request := Request(SolanaUrl, SolanaFeatures, SolanaTimeout)

  /** `f"Error: {e}"` for an exception whose text is `detail`. */
  function ErrorMessage(detail: string): string {
    "Error: " + detail
  }

  /** The AttributeError text of `v.get(...)` on a value that is not a dict. */
  function NoGetMessage(v: Value): string {
    "'" + TypeName(v) + "' object has no attribute 'get'"
  }

  /** The value `predict_bitcoin` returns for the outcome of its request. */
  function PredictBitcoin(o: Outcome): (r: Value)
    ensures o.Timeout? || o.Failed? ==> r == Str(ErrorMessage(o.detail))
    ensures o.Response? && o.status != 200 ==> r == Str("API Error: " + IntToString(o.status))
    ensures o.Response? && o.status == 200 && o.body.Undecodable? ==> r == Str(ErrorMessage(o.body.detail))
    ensures o.Response? && o.status == 200 && o.body.Decoded? && !o.body.value.Obj? ==>
              r == Str(ErrorMessage(NoGetMessage(o.body.value)))
    ensures o.Response? && o.status == 200 && o.body.Decoded? && o.body.value.Obj? ==>
              r == (match Get(o.body.value.members, BitcoinField)
                    case Some(v) => v
                    case None => Str(NoPrediction))
  {
    match o
    case Timeout(detail) => Str(ErrorMessage(detail))
    case Failed(detail) => Str(ErrorMessage(detail))
    case Response(status, _, body) =>
      if status != 200 then Str("API Error: " + IntToString(status))
      else match body
        case Undecodable(detail) => Str(ErrorMessage(detail))
        case Decoded(data) =>
          if !data.Obj? then Str(ErrorMessage(NoGetMessage(data)))
          else match Get(data.members, BitcoinField)
            case Some(v) => v
            case None => Str(NoPrediction)
  }

  /** The value `predict_solana` returns for the outcome of its request: always a
      float or a str. */
  function PredictSolana(py: Builtins, o: Outcome): (r: Value)
    ensures r.Float? || r.Str?
    ensures o.Timeout? ==> r == Str(TimeoutMessage)
    ensures o.Failed? ==> r == Str(ErrorMessage(o.detail))
    ensures o.Response? && o.status != 200 ==>
              r == Str("API Error " + IntToString(o.status) + ": " + o.text)
    ensures o.Response? && o.status == 200 && o.body.Undecodable? ==> r == Str(ErrorMessage(o.body.detail))
    ensures o.Response? && o.status == 200 && o.body.Decoded? && !o.body.value.Obj? ==>
              r == Str(ErrorMessage(NoGetMessage(o.body.value)))
    ensures o.Response? && o.status == 200 && o.body.Decoded? && o.body.value.Obj? ==>
              var field := Get(o.body.value.members, SolanaField);
              && (field.None? || field.value.Null? ==> r == Str(NoPrediction))
              && (field.Some? && !field.value.Null? ==>
                    r == (match ToFloat(py, field.value)
                          case Ok(x) => Float(x)
                          case Err(e) => Str(ErrorMessage(e))))
  {
    match o
    case Timeout(_) => Str(TimeoutMessage)
    case Failed(detail) => Str(ErrorMessage(detail))
    case Response(status, text, body) =>
      if status != 200 then Str("API Error " + IntToString(status) + ": " + text)
      else match body
        case Undecodable(detail) => Str(ErrorMessage(detail))
        case Decoded(data) =>
          if !data.Obj? then Str(ErrorMessage(NoGetMessage(data)))
          else match Get(data.members, SolanaField)
            case None => Str(NoPrediction)
            case Some(Null) => Str(NoPrediction)
            case Some(v) =>
              match ToFloat(py, v)
              case Ok(x) => Float(x)
              case Err(e) => Str(ErrorMessage(e))
  }

  /** Bitcoin's page sees a number exactly when the endpoint answered 200 with a
      JSON object whose `predicted_next_day_high_usd` member is a number (a JSON
      `true` or `false` included, Python's bool being an int); the number is then
      that member's value. */
  lemma BitcoinNumberIff(o: Outcome)
    ensures IsNumber(PredictBitcoin(o)) <==>
              && o.Response? && o.status == 200
              && o.body.Decoded? && o.body.value.Obj?
              && HasKey(o.body.value.members, BitcoinField)
              && IsNumber(Get(o.body.value.members, BitcoinField).value)
    ensures IsNumber(PredictBitcoin(o)) ==>
              PredictBitcoin(o) == Get(o.body.value.members, BitcoinField).value
  {
  }

  /** `predict_bitcoin` has no timeout handler: a timeout reads like any other
      exception. */
  lemma BitcoinTimeoutIsGenericError(detail: string)
    ensures PredictBitcoin(Timeout(detail)) == PredictBitcoin(Failed(detail))
    ensures PredictBitcoin(Timeout(detail)).s[..7] == "Error: "
  {
  }

  /** An "API Error" message names the status: two error statuses give the same
      message only when they are the same status. */
  lemma BitcoinApiErrorNamesStatus(s1: int, t1: string, b1: Body, s2: int, t2: string, b2: Body)
    requires s1 != 200 && s2 != 200
    requires PredictBitcoin(Response(s1, t1, b1)) == PredictBitcoin(Response(s2, t2, b2))
    ensures s1 == s2
  {
    var m1 := "API Error: " + IntToString(s1);
    var m2 := "API Error: " + IntToString(s2);
    assert m1[11..] == IntToString(s1);
    assert m2[11..] == IntToString(s2);
    IntToStringInjective(s1, s2);
  }

  /** Solana's page sees a number exactly when the endpoint answered 200 with a
      JSON object whose `predicted_next_day_high` member is present, not null, and
      accepted by `float()`. */
  lemma SolanaNumberIff(py: Builtins, o: Outcome)
    ensures IsNumber(PredictSolana(py, o)) <==>
              && o.Response? && o.status == 200
              && o.body.Decoded? && o.body.value.Obj?
              && HasKey(o.body.value.members, SolanaField)
              && !Get(o.body.value.members, SolanaField).value.Null?
              && ToFloat(py, Get(o.body.value.members, SolanaField).value).Ok?
  {
  }

  /** The timeout message is returned for a timeout and for nothing else, so the
      user can tell "wait and retry" apart from every other failure. */
  lemma SolanaTimeoutIff(py: Builtins, o: Outcome)
    ensures PredictSolana(py, o) == Str(TimeoutMessage) <==> o.Timeout?
  {
    match o
    case Timeout(_) =>
    case Failed(detail) => ErrorMessageIsNotTimeout(detail);
    case Response(status, text, body) =>
      if status != 200 {
        var m := "API Error " + IntToString(status) + ": " + text;
        assert m[4] == 'E';
        assert TimeoutMessage[4] == 't';
      } else if PredictSolana(py, o).Str? {
        var m := PredictSolana(py, o).s;
        if m != NoPrediction {
          ErrorMessageIsNotTimeout(m[7..]);
        }
      }
  }

  lemma ErrorMessageIsNotTimeout(detail: string)
    ensures ErrorMessage(detail) != TimeoutMessage
  {
    assert ErrorMessage(detail)[0] == 'E';
    assert TimeoutMessage[0] == 'A';
  }

  /** The Solana request is the same every time: nine distinct, numeric query
      parameters. */
  lemma SolanaRequestFixed()
    ensures |SolanaRequest.params| == 9
    ensures forall i, j :: 0 <= i < j < 9 ==> SolanaRequest.params[i].0 != SolanaRequest.params[j].0
    ensures forall i :: 0 <= i < 9 ==> IsNumber(SolanaRequest.params[i].1)
  {
  }
}
