# Stock Price Trend — verified model of the chart and quick-range logic

The dashboard (`app.py`) shows a candlestick chart of a stock ticker's daily
history together with four trailing moving averages of the closing price
(windows 5, 20, 60 and 120) and a volume bar chart. Four quick-range buttons
(1m, 6m, 1y, 5y) set the date picker's start and end dates.

This project models, in Dafny:

- `MovingAverage` (`moving_average.dfy`): the `rolling(window=w, min_periods=0).mean()`
  column over the closes. Entry *i* is the mean of the closes at indices
  `max(0, i-w+1) .. i`, so the window shrinks near the start of the series.
  `Rolling` is the specification. `RollingMean` is a one-pass computation with
  a running window total, proved equal to `Rolling`.
- `QuickRange` (`quick_range.dfy`): `set_button_dates`. It takes the four
  last-click timestamps and a `today` day number and returns the `(start, end)`
  pair. `end` is yesterday. When the largest timestamp is 0 the start is 181 days back.
  Otherwise an if/elif chain picks the first button, in the order
  1m, 6m, 1y, 5y, whose timestamp equals the maximum. `ChosenButton` is an
  independent definition of that choice, and the resolver is proved against it.
- `Dashboard` (`dashboard.dfy`): the `update_graph` callback. It chooses the
  ticker, fetches a quote from a market-data service passed as a parameter,
  adds the four `ma_*` columns to the history table in place (class `Frame`),
  and builds the figure by appending traces (class `Figure`). An empty history
  gives an empty figure with the "nothing found" toast open. Otherwise it draws
  six traces with the company's short name as title, and the toast stays closed.
- `Wrappers` (`wrappers.dfy`): `Option`, used for Python's `None`.

Prices are Dafny `real`, so they are exact rationals. Dates are integer day
numbers.

Behaviour of the code that the model keeps:

- The default ticker `^GDAXI` is used only when the symbol is `None`. A symbol
  cleared to the empty string is passed to the service unchanged.
- The if/elif chain always matches, for any integer timestamps, not only
  non-negative ones. The maximum of a list is always one of its elements.
- Quick-range starts are counted back from today, while the end is
  yesterday. This asymmetry is kept as written.

## Model

| member | source | states |
|---|---|---|
| MovingAverage.WindowStart | app.py:123-126 | the window ending at index i starts at max(0, i-w+1): it starts at or before i and holds min(i+1, w) closes |
| MovingAverage.Window | app.py:123-126 | the closes averaged at index i, from the window start through i; never empty, so the mean is always defined (min_periods=0) |
| MovingAverage.Rolling | app.py:123-126 | the moving-average column has exactly one entry per close, and entry i is the mean of the closes at max(0, i-w+1) .. i |
| MovingAverage.RollingMean | app.py:123-126 | the one-pass running-total computation gives exactly the moving-average column |
| MovingAverage.ShrinkingWindow | app.py:123-126 | before the window fills (i < w-1), entry i is the mean of all closes 0..i; after that, it is the mean of exactly the last w closes |
| MovingAverage.RollingPrefix | app.py:123-126 | no look-ahead: the column over the first k closes is the first k entries of the full column |
| MovingAverage.NoLookAhead | app.py:123-126 | changing the close at index j leaves every average at an index before j unchanged |
| MovingAverage.EmptyHistoryEmptyColumn | app.py:123-126 | an empty close series gives an empty column for every window |
| MovingAverage.RollingBetween | app.py:123-126 | every average lies between the lowest and the highest close of the series |
| MovingAverage.WindowOfOne | app.py:123-126 | with a window of one bar, the column equals the closes |
| MovingAverage.ThreeBarExample | app.py:123 | closes 10, 20, 30 with window 5 give 10, 15, 20 (the partial window at the series start) |
| MovingAverage.MeanBetween | app.py:123-126 | a mean lies between the smallest and the largest value averaged |
| MovingAverage.SumBetween | app.py:123-126 | a sum of n values in [lo, hi] lies between n*lo and n*hi |
| MovingAverage.SumUncons | app.py:123-126 | taking the first close off a window takes it off the window's sum |
| MovingAverage.SumDropFirst | app.py:123-126 | when the window slides, the close that falls out is subtracted from its running total |
| MovingAverage.SumSnoc | app.py:123-126 | the close that enters the window is added to its running total |
| MovingAverage.RollingSnoc | app.py:123-126 | one more bar appends exactly that bar's window mean to the column |
| QuickRange.Yesterday | app.py:17 | the end date is the day before today |
| QuickRange.Offset | app.py:181-187 | each button goes back 31, 181, 366 or 1826 days, so at least 31 and at most 1826 |
| QuickRange.Max | app.py:177 | the maximum of the button timestamps is one of them and is at least each of them |
| QuickRange.SetButtonDates | app.py:173-189 | the end is always yesterday; the start is always assigned (never None), is one of today-31/181/366/1826, and lies strictly before the end |
| QuickRange.ResolvesChosenButton | app.py:176-189 | when the largest timestamp is 0 the start is today minus 181; otherwise (negative maxima included) it is today minus the offset of the first button (1m, 6m, 1y, 5y) holding the maximum, stated both through ChosenButton and directly for every index satisfying FirstLatest |
| QuickRange.NegativeMaximumPicksButton | app.py:177-181 | a largest timestamp of -1 is not the default case: the chain picks 1m and the start is today-31 |
| QuickRange.ChosenButton | app.py:180-187 | the chosen button holds the maximum timestamp and every earlier button holds less |
| QuickRange.IndexOf | app.py:180-187 | first-match search: the index found holds the value and no earlier index does |
| QuickRange.FirstLatestUnique | app.py:180-187 | at most one button is the first one that holds the maximum, so the choice is deterministic |
| QuickRange.TieGoesToEarlier | app.py:180-183 | equal non-zero latest timestamps on 1m and 6m resolve to the 1m range (today-31) |
| QuickRange.NoClickDefault | app.py:177-178 | with no clicks, the range is (today-181, today-1) |
| Dashboard.TickerSymbol | app.py:111-114 | no symbol yet selects ^GDAXI; any typed symbol, even an empty one, is used as given |
| Dashboard.Frame.constructor | app.py:120 | the history table as the service returns it: the given bars and no added columns |
| Dashboard.Frame.AssignColumn | app.py:123-126 | assigning a column adds or replaces that one column and leaves the rest of the table alone |
| Dashboard.Frame.AddMovingAverages | app.py:123-126 | the table gains ma_5, ma_20, ma_60 and ma_120, each the moving-average column of the closes |
| Dashboard.Figure.constructor | app.py:129 | make_subplots gives a figure with no traces and no title |
| Dashboard.Figure.AddTrace | app.py:137-144 | a trace is appended after the traces already drawn; the title is unchanged |
| Dashboard.UpdateGraph | app.py:105-163 | the toast is open exactly when the history is empty, and then the figure is empty; otherwise the figure holds the OHLC candlestick, MA5, MA20, MA60, MA120 and volume traces in that order, titled with the short name; an empty history leaves the figure untitled; a missing short name raises a KeyError on the key shortName |
| Dashboard.Closes | app.py:123-126 | the Close column has one entry per bar, entry i being bar i's closing price |
| Dashboard.Frame.Empty | app.py:132 | the table is empty exactly when it has no closes, i.e. no rows |
| Dashboard.Figure.SetTitle | app.py:147-149 | the title becomes the given name and the traces are unchanged |
| Dashboard.ChartTraces | app.py:137-144 | six traces: the OHLC candlestick of the bars first, the volume bars last, and between them four averages aligned bar for bar, entry i being the mean of the closing window for windows 5, 20, 60, 120 in turn |
| Dashboard.WithAverages | app.py:123-126 | the table gains exactly the columns ma_5, ma_20, ma_60 and ma_120, each with one entry per bar whose entry i is the mean of the closing window for windows 5, 20, 60, 120 respectively; every other column is kept as it was |

## Left out

- The market-data calls `yf.Ticker`, `.info` and `.history` (app.py:112-120) are network I/O. They are one function parameter `source`, from ticker and dates to info fields and history.
- Failures of the market-data service itself (network errors, unknown tickers raising inside the library) are not modelled. Only the `info["shortName"]` lookup failure on a non-empty history is modelled.
- The Dash app, its layout, the callback wiring and `run_server` (app.py:19-104, 166-172, 192-193) are UI plumbing.
- Plotly subplot layout and styling (app.py:129, 146-161) are rendering. Only the traces, their order and the title are kept. The shared x-axis (`hist.index`, the bar dates) and the marker colours are dropped, so bars carry no date.
- The wall clock `dt.datetime.now()` (app.py:16) is replaced by the parameter `today`. The `strftime` date formatting (app.py:17, 178-187) is dropped, and dates are day numbers. The calendar conversion is not modelled.
- Floating-point rounding of pandas' rolling mean is not modelled, because prices are exact reals.
- The date picker's bounds (no date before 2000-01-01, none after yesterday; app.py:54-55) are a UI constraint that the resolver does not enforce.
- MovingAverage.Rolling: requires a window of at least one bar. The source only uses 5, 20, 60 and 120. pandas' behaviour for a window of 0 is not modelled.
