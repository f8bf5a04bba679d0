# Taiwan stock screener: a Dafny model of its screening core

The screener (`app.py`) scans listed Taiwan stocks. For each listing it downloads two years
of weekly prices and drops the stock if the download fails, if there are fewer than 35 weeks
of data, or if the last close lies outside the user's price range. Otherwise it adds moving
averages, Bollinger bands and MACD columns to the price table. It then checks two rules on the
last three weeks:

- S8, "MACD 緩步爬升": MACD is strictly rising, above its signal line, with a positive histogram.
- S3, "突破布林上軌": the close has just crossed above the upper Bollinger band.

Stocks that match at least one requested rule are collected. A progress bar advances once per
stock.

The model has four modules:

- `Wrappers` (`wrappers.dfy`): the `Option` type used where the code returns `None`.
- `Indicators` (`indicators.dfy`): `calculate_indicators`, first as a value (`Augment`,
  `IndicatorTable`), then as the in-place update of a `Frame` object (`CalculateIndicators`).
  Prices are `real`. A rolling column is a column of `Cell`, and pandas' NaN before the window
  fills is `Cell.NaN`.
- `Strategies` (`strategies.dfy`): `check_strategies`. `Matches` is the specification.
  `CheckStrategies` is the method that appends labels one rule at a time, proved equal to it.
- `Scanner` (`scanner.dfy`): `process_stock` as a pure function (`ProcessStock`). `CollectResults` is the
  loop that collects results and drives the progress bar, proved against `Collected`; `Scan`
  runs it over the outcomes of all targets.

Assumptions the model makes about code outside `app.py`:

- `ewm(span, adjust=False).mean()` follows pandas' recursion. The first value is the first
  price. After that, e(t) = a·x(t) + (1 − a)·e(t − 1), with a = 2 / (span + 1).
- `rolling(20).std()` is the function `stdev`, applied to each full 20-row window. It is a
  parameter. The only assumption about it is that it is non-negative (`NonNegative`), and only
  the lemmas that need that fact require it.
- `yf.download` is the function `download`, a parameter from ticker to `Download`. `Failed`
  means the call raised. `Fetched(close)` is the Close column it returned; `Fetched([])` is the
  empty frame.

On these inputs the only step of `process_stock` that can raise is the download, so its
catch-all `except` is modelled as the `Failed` case of the download.

Places where the code behaves differently from what a reader might expect, and which the model
follows:

- MACD, Signal and Hist have values from the first row on, because `adjust=False` gives them
  values there. Only SMA15, SMA20, Upper and Lower start as NaN.
- Results are collected in submission order, not completion order. The loop reads `futures`
  by index.
- A short table is not an error that the caller must avoid. `calculate_indicators` returns
  `None` for it, and `process_stock` returns `None` before that happens.
- Strategy identifiers other than "S8" and "S3" are ignored silently. They are not rejected.
- A comparison against a NaN band is false in both directions. So `close <= Upper` fails on a
  NaN row, and the model's `AtOrBelow` captures that.

## Model

| member | source | states |
|---|---|---|
| `Indicators.RollingMean` | app.py:36-37 | a rolling mean column is NaN exactly until its window is full, then the mean of the trailing window |
| `Indicators.Augment` | app.py:35-49 | the added columns line up with Close. MACD = EMA12 − EMA26, Signal = EMA9 of MACD, Hist = MACD − Signal on every row. SMA15 and SMA20 are trailing means, defined exactly from rows 14 and 19 on. Upper and Lower are defined where SMA20 is and lie at equal distances 2·std above and below it |
| `Indicators.IndicatorTable` | app.py:31-51 | None exactly when the table has fewer than 35 rows; otherwise the table `Augment` gives, i.e. the same Close column with every indicator column filled in |
| `Indicators.CalculateIndicators` | app.py:31-51 | below 35 rows, returns null and leaves the frame unchanged. Otherwise it returns the same frame, whose columns are now those of `IndicatorTable` of the original Close column |
| `Indicators.Ema` | app.py:45-48 | `ewm(span, adjust=False).mean()`: one value per row, the first being the first price and each later one a·x(t) + (1 − a)·e(t − 1) with a = 2/(span + 1) (pandas' definition, taken as an assumption) |
| `Indicators.Band` | app.py:41-42 | Upper and Lower row by row: SMA20 plus k times the deviation, NaN wherever either input is NaN |
| `Indicators.BandsBracketMean` | app.py:40-42 | with a non-negative deviation, Lower ≤ SMA20 ≤ Upper on every row where the band is defined |
| `Indicators.MeanOfConstant` | app.py:36-37 | the moving average of a flat window is that price |
| `Indicators.EmaWithinRange` | app.py:45-48 | an adjust=False EMA at row t lies between any lower and upper bound of the prices up to t (so a flat series has a flat EMA) |
| `Strategies.Matches` | app.py:54-74 | the S8 label is returned iff "S8" is requested and MACD[t] > MACD[t−1] > MACD[t−2], MACD[t] > Signal[t] and Hist[t] > 0. The S3 label is returned iff "S3" is requested, Close[t] > Upper[t] and Close[t−1] ≤ Upper[t−1], with both bands defined. Only these two labels appear, with S8 before S3 and no duplicates, so there are at most two. The result is empty when neither rule is requested |
| `Strategies.CheckStrategies` | app.py:54-74 | appending the labels rule by rule on the indicator frame yields exactly `Matches` of that frame |
| `Strategies.MatchesReadOnlyLastThreeRows` | app.py:55-57 | two tables that agree on their last three rows get the same result, whatever their earlier rows and lengths |
| `Strategies.BreakoutIsReportedOnce` | app.py:68-70 | if a scan of the first n rows reports a breakout, the scan of n + 1 rows does not: a sustained breakout is reported only on the crossing week |
| `Strategies.FlatPricesMatchNothing` | app.py:31-74 | a flat history of at least 35 weeks matches neither rule, for any requested strategies |
| `Scanner.CodeOf` | app.py:79 | the ticker code is a prefix of the listing string that contains no separator start, and it stops either at the end of the string or at the first double space |
| `Scanner.Ticker` | app.py:79 | the downloaded ticker is the listing's code (`CodeOf`) followed by ".TW" |
| `Scanner.ProcessStock` | app.py:77-94 | a record exists iff the download succeeded, has at least 35 rows, its last close is within [min, max] inclusive, and some rule matches. Every other path, the raised download included, gives None. The record carries the listing string, the last close, the indicator table and its matches |
| `Scanner.PriceBoundsAreInclusive` | app.py:84-85 | a last close equal to the lower or the upper bound passes the price filter |
| `Scanner.Collected` | app.py:123-125 | at most one record per outcome |
| `Scanner.CollectResults` | app.py:123-127 | the loop keeps exactly the non-None outcomes, in submission order, and reports progress once per symbol: (i + 1)/n after the i-th |
| `Scanner.Scan` | app.py:118-127 | the scan's results are the collected outcomes of `process_stock` over all targets in submission order, and it reports n progress values, (i + 1)/n after the i-th |
| `Scanner.CollectedAppend` | app.py:123-125 | collecting two runs of outcomes gives the records of the first followed by those of the second (order is kept) |
| `Scanner.CollectedMembers` | app.py:123-125 | a record is collected iff it is one of the non-None outcomes |
| `Scanner.NothingToCollect` | app.py:125 | outcomes that are all None collect to nothing |
| `Scanner.FailureIsIsolated` | app.py:92-93 | a symbol that fails only removes its own record; the records before and after it stay, in order |
| `Scanner.AllFailedScanFindsNothing` | app.py:118-127 | when every download fails the scan finds no stock |
| `Scanner.ProgressIsBounded` | app.py:126 | every progress value lies in (0, 1], for any number of symbols |
| `Scanner.ProgressEndsAtOne` | app.py:126 | progress is exactly 1 after the last symbol of any non-empty scan |
| `Scanner.ProgressIsMonotone` | app.py:126 | progress strictly increases with every symbol |

## Left out

- `get_taiwan_stock_list` (app.py:15-28): an HTTP fetch, HTML parsing and a one-day cache. The
  scan takes its list of listing strings as an input.
- The industry filter and the list of targets (app.py:113-114): an equality filter on the
  listing table. The scan starts from the resulting list.
- The Streamlit sidebar, the strategy checkboxes, the progress widgets, the status text and the
  charts (app.py:97-117, 126-155): these are UI. Progress is kept as the sequence of values
  given to the progress bar.
- `ThreadPoolExecutor` (app.py:121-122): the parallel execution is not modelled. The outcomes
  are computed as values and read in submission order, as the loop does.
- `yf.download` (app.py:80): network I/O, modelled as the `download` parameter. The model also
  assumes `data['Close']` is one column. It does not cover library versions that return a
  multi-column Close, where the price comparison raises and every stock is dropped.
- The numerics of `rolling(20).std()` and of floating point, including NaN closes and
  rounding: prices are exact reals and the deviation is an abstract non-negative function.
- The Open, High, Low and Volume columns: the core reads only Close. They appear only in the
  chart.
- Strategies.CheckStrategies: requires at least three rows and the indicator columns. Without
  them the source raises IndexError or KeyError. `process_stock`, the only caller, always
  meets both, so the exception path is not modelled there.
