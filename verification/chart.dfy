/**
 * `plot_candlestick`: the decisions behind the Plotly figure. The figure is
 * reduced to what those decisions fix: the title, the candles in plotting order
 * with one x-axis category each, and the tick interval of the category axis.
 */
module Chart {

  import opened Wrappers
  import opened Kraken
  import Text

  /** The figure: `candles[i]` is drawn at category `categories[i]`; every
      `dtick`-th category is labelled. */
  datatype Figure = Figure(title: string, categories: seq<string>, candles: seq<Candle>, dtick: int)

  predicate SortedByDate(cs: seq<Candle>) {
    forall i, j :: 0 <= i < j < |cs| ==> cs[i].date <= cs[j].date
  }

  /** Inserts one candle into a date-ordered series, after every candle with the same or an earlier date. */
  function Insert(c: Candle, cs: seq<Candle>): (r: seq<Candle>)
    requires SortedByDate(cs)
    ensures |r| == |cs| + 1
    ensures r[0] == c || (|cs| > 0 && r[0] == cs[0])
    ensures SortedByDate(r)
    ensures multiset(r) == multiset(cs) + multiset{c}
  {
    if |cs| == 0 then [c]
    else if c.date < cs[0].date then [c] + cs
    else
      var tail := Insert(c, cs[1..]);
      assert cs == [cs[0]] + cs[1..];
      assert cs[0].date <= tail[0].date;
      [cs[0]] + tail
  }

  /** `DataFrame(data).sort_values("date")`: the candles in ascending date order. */
  function SortByDate(cs: seq<Candle>): (r: seq<Candle>)
    ensures SortedByDate(r)
    ensures multiset(r) == multiset(cs)
    ensures |r| == |cs|
  {
    if |cs| == 0 then []
    else
      assert cs == cs[..|cs| - 1] + [cs[|cs| - 1]];
      Insert(cs[|cs| - 1], SortByDate(cs[..|cs| - 1]))
  }

  /** `dtick_val = 1 if days == 7 else 3`. */
  function TickInterval(days: int): (dtick: int)
    ensures dtick == 1 <==> days == 7
    ensures dtick != 1 ==> dtick == 3
  {
    if days == 7 then 1 else 3
  }

  /** `f"{symbol} {days}-Day Candlestick Chart"`. */
  function Title(symbol: string, days: int): (t: string)
    ensures |t| == |symbol| + 1 + |Text.IntToString(days)| + |TitleSuffix|
    ensures t[..|symbol| + 1] == symbol + " "
    ensures t[|symbol| + 1..|t| - |TitleSuffix|] == Text.IntToString(days)
    ensures t[|t| - |TitleSuffix|..] == TitleSuffix
  {
    symbol + " " + Text.IntToString(days) + TitleSuffix
  }

  const TitleSuffix: string := "-Day Candlestick Chart"

  /** The title names the range: two ranges give the same title for a symbol
      only when they are the same range. */
  lemma TitleNamesRange(symbol: string, d1: int, d2: int)
    requires Title(symbol, d1) == Title(symbol, d2)
    ensures d1 == d2
  {
    var t1 := Title(symbol, d1);
    var t2 := Title(symbol, d2);
    assert |t1| == |t2|;
    Text.IntToStringInjective(d1, d2);
  }

  /** The whole decision: no figure for missing or empty data; otherwise the
      candles sorted by date, each at the category `dateLabel` gives its date
      (`strftime("%b %d")`, not modelled). */
  function PlotCandlestick(data: Option<seq<Candle>>, symbol: string, days: int,
                           dateLabel: int -> string): (r: Option<Figure>)
    ensures r.None? <==> data.None? || |data.value| == 0
    ensures r.Some? ==>
              && SortedByDate(r.value.candles)
              && multiset(r.value.candles) == multiset(data.value)
              && |r.value.categories| == |r.value.candles| == |data.value|
              && (forall i :: 0 <= i < |r.value.candles| ==>
                    r.value.categories[i] == dateLabel(r.value.candles[i].date))
              && (r.value.dtick == 1 <==> days == 7)
              && (days != 7 ==> r.value.dtick == 3)
              && r.value.title == Title(symbol, days)
  {
    match data
    case None => None
    case Some(cs) =>
      if |cs| == 0 then None
      else
        var sorted := SortByDate(cs);
        Some(Figure(Title(symbol, days),
                   seq(|sorted|, i requires 0 <= i < |sorted| => dateLabel(sorted[i].date)),
                   sorted,
                   TickInterval(days)))
  }
}
