/**
 * The chart callback: fetch the history of a ticker, add the four
 * moving-average columns to it, and either open the "nothing found" toast
 * (empty history) or draw the candlestick, the four averages and the volume.
 * The market-data service is a parameter; plotly styling is not modelled,
 * only which traces the figure holds and its title.
 */
module Dashboard {
  import opened Wrappers
  import MovingAverage

  /** Ticker shown before the user has typed a symbol. */
  const DefaultSymbol: string := "^GDAXI"

  /** Windows of the four moving-average columns, in the order they are drawn. */
  const Windows: seq<nat> := [5, 20, 60, 120]

  /** Names of the four moving-average columns added to the history table. */
  const AverageNames: set<string> := {"ma_5", "ma_20", "ma_60", "ma_120"}

  /** One trading day of the history. */
  datatype Bar = Bar(open: real, high: real, low: real, close: real, volume: int)

  /** What the market-data service returns for a ticker: its info fields and its history. */
  datatype Quote = Quote(info: map<string, string>, history: seq<Bar>)

  /** The market-data service: ticker, start day, end day. */
  type Source = (string, int, int) -> Quote

  /** The closing-price column of a history. */
  function Closes(bars: seq<Bar>): (c: seq<real>)
    ensures |c| == |bars|
    ensures forall i :: 0 <= i < |bars| ==> c[i] == bars[i].close
  {
    seq(|bars|, i requires 0 <= i < |bars| => bars[i].close)
  }

  /** The ticker the callback asks the service for. */
  function TickerSymbol(symbol: Option<string>): (ticker: string)
    ensures symbol == None ==> ticker == DefaultSymbol
    ensures symbol != None ==> ticker == symbol.value
  {
    match symbol
    case None => DefaultSymbol
    case Some(s) => s
  }

  /** The history table, to which the callback adds columns in place. */
  class Frame {
    const bars: seq<Bar>
    var columns: map<string, seq<real>>

    constructor (bars: seq<Bar>)
      ensures this.bars == bars && columns == map[]
    {
      this.bars := bars;
      columns := map[];
    }

    /** `hist.empty`: the table has no rows. */
    function Empty(): (e: bool)
      ensures e <==> Closes(bars) == []
    {
      |bars| == 0
    }

    /** `hist[name] = values`: adds or replaces one column. */
    method AssignColumn(name: string, values: seq<real>)
      modifies this
      ensures columns == old(columns)[name := values]
    {
      columns := columns[name := values];
    }

    /** The four moving-average columns of the closing price, ma_5 .. ma_120. */
    method AddMovingAverages()
      modifies this
      ensures columns == WithAverages(old(columns), bars)
    {
      var closes := Closes(bars);
      var ma5 := MovingAverage.RollingMean(closes, Windows[0]);
      AssignColumn("ma_5", ma5);
      var ma20 := MovingAverage.RollingMean(closes, Windows[1]);
      AssignColumn("ma_20", ma20);
      var ma60 := MovingAverage.RollingMean(closes, Windows[2]);
      AssignColumn("ma_60", ma60);
      var ma120 := MovingAverage.RollingMean(closes, Windows[3]);
      AssignColumn("ma_120", ma120);
    }
  }

  /** The traces the figure can hold. */
  datatype Trace =
    | Candlestick(name: string, bars: seq<Bar>)
    | Scatter(name: string, y: seq<real>)
    | VolumeBars(bars: seq<Bar>)

  /** The two-row figure: traces drawn, in order, and the title. */
  class Figure {
    var traces: seq<Trace>
    var title: string

    constructor ()
      ensures traces == [] && title == ""
    {
      traces := [];
      title := "";
    }

    method AddTrace(t: Trace)
      modifies this
      ensures traces == old(traces) + [t] && title == old(title)
    {
      traces := traces + [t];
    }

    method SetTitle(t: string)
      modifies this
      ensures title == t && traces == old(traces)
    {
      title := t;
    }
  }

  /** The callback's outputs (figure, loading text, toast open), or the key whose lookup raised. */
  datatype Response =
    | Rendered(fig: Figure, loading: string, errOpen: bool)
    | KeyMissing(key: string)

  /** The traces drawn for a non-empty history, in drawing order. */
  function ChartTraces(bars: seq<Bar>): (t: seq<Trace>)
    ensures |t| == 6
    ensures t[0].Candlestick? && t[0].bars == bars
    ensures t[5].VolumeBars? && t[5].bars == bars
    ensures forall k :: 1 <= k <= 4 ==> t[k].Scatter? && |t[k].y| == |bars|
    ensures forall k, i :: 1 <= k <= 4 && 0 <= i < |bars| ==>
      t[k].y[i] == MovingAverage.Mean(MovingAverage.Window(Closes(bars), i, Windows[k - 1]))
  {
    var c := Closes(bars);
    [ Candlestick("OHLC", bars),
      Scatter("MA5", MovingAverage.Rolling(c, Windows[0])),
      Scatter("MA20", MovingAverage.Rolling(c, Windows[1])),
      Scatter("MA60", MovingAverage.Rolling(c, Windows[2])),
      Scatter("MA120", MovingAverage.Rolling(c, Windows[3])),
      VolumeBars(bars) ]
  }

  /** The columns after ma_5 .. ma_120 are assigned, in that order. */
  function WithAverages(columns: map<string, seq<real>>, bars: seq<Bar>): (r: map<string, seq<real>>)
    ensures r.Keys == columns.Keys + AverageNames
    ensures forall name :: name in columns && name !in AverageNames ==> r[name] == columns[name]
    ensures forall name :: name in AverageNames ==> |r[name]| == |bars|
    ensures forall i :: 0 <= i < |bars| ==>
      && r["ma_5"][i] == MovingAverage.Mean(MovingAverage.Window(Closes(bars), i, 5))
      && r["ma_20"][i] == MovingAverage.Mean(MovingAverage.Window(Closes(bars), i, 20))
      && r["ma_60"][i] == MovingAverage.Mean(MovingAverage.Window(Closes(bars), i, 60))
      && r["ma_120"][i] == MovingAverage.Mean(MovingAverage.Window(Closes(bars), i, 120))
  {
    var c := Closes(bars);
    columns["ma_5" := MovingAverage.Rolling(c, Windows[0])]["ma_20" := MovingAverage.Rolling(c, Windows[1])]
      ["ma_60" := MovingAverage.Rolling(c, Windows[2])]["ma_120" := MovingAverage.Rolling(c, Windows[3])]
  }

  /**
   * The chart callback. Empty history: an empty figure and the toast open.
   * Otherwise the six traces, the company's short name as title, toast
   * closed; a missing short name raises before anything is returned.
   */
  method UpdateGraph(symbol: Option<string>, startDate: int, endDate: int, source: Source)
    returns (res: Response)
    ensures var q := source(TickerSymbol(symbol), startDate, endDate);
      res.KeyMissing? <==> (q.history != [] && "shortName" !in q.info)
    ensures res.KeyMissing? ==> res.key == "shortName"
    ensures var q := source(TickerSymbol(symbol), startDate, endDate);
      res.Rendered? ==>
        && fresh(res.fig)
        && res.loading == ""
        && res.errOpen == (q.history == [])
        && res.fig.traces == (if q.history == [] then [] else ChartTraces(q.history))
        && (q.history == [] ==> res.fig.title == "")
        && (q.history != [] ==> res.fig.title == q.info["shortName"])
  {
    var ticker := TickerSymbol(symbol);
    var q := source(ticker, startDate, endDate);
    var info := q.info;
    var hist := new Frame(q.history);

    hist.AddMovingAverages();

    var fig := new Figure();

    if hist.Empty() {
      return Rendered(fig, "", true);
    }

    fig.AddTrace(Candlestick("OHLC", hist.bars));
    fig.AddTrace(Scatter("MA5", hist.columns["ma_5"]));
    fig.AddTrace(Scatter("MA20", hist.columns["ma_20"]));
    fig.AddTrace(Scatter("MA60", hist.columns["ma_60"]));
    fig.AddTrace(Scatter("MA120", hist.columns["ma_120"]));
    fig.AddTrace(VolumeBars(hist.bars));
    assert fig.traces == ChartTraces(q.history);

    if "shortName" !in info {
      return KeyMissing("shortName");
    }
    fig.SetTitle(info["shortName"]);
    return Rendered(fig, "", false);
  }
}
