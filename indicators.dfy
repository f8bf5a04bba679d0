/**
 * Technical indicators of `calculate_indicators` (app.py:31-51).
 *
 * A price table is modelled by its Close column (`seq<real>`, oldest row
 * first).  Derived columns that pandas leaves as NaN until their rolling
 * window fills are columns of `Cell`; the EMA-based columns (MACD, Signal,
 * Hist) are defined from the first row on, because `ewm(adjust=False)` is.
 */
module Indicators {
  import opened Wrappers

  /** calculate_indicators refuses tables shorter than this (26 + 9 rows for MACD). */
  const MinRows: nat := 35

  /** Window lengths and spans used by the screener. */
  const ShortWindow: nat := 15
  const BandWindow: nat := 20
  const FastSpan: nat := 12
  const SlowSpan: nat := 26
  const SignalSpan: nat := 9

  /** Width of the Bollinger band, in standard deviations. */
  const BandWidth: real := 2.0

  /** A cell of a rolling column: pandas' NaN until the window is full. */
  datatype Cell = NaN | Num(v: real)

  /** Pandas' arithmetic on cells: NaN absorbs everything. */
  function CellAdd(a: Cell, b: Cell): Cell
  {
    if a.Num? && b.Num? then Num(a.v + b.v) else NaN
  }

  function CellScale(k: real, a: Cell): Cell
  {
    if a.Num? then Num(k * a.v) else NaN
  }

  /** The rolling standard deviation is supplied from outside; all the model relies on is that it is never negative. */
  ghost predicate NonNegative(stdev: seq<real> -> real)
  {
    forall w :: stdev(w) >= 0.0
  }

  function Sum(xs: seq<real>): real
  {
    if xs == [] then 0.0 else Sum(xs[..|xs| - 1]) + xs[|xs| - 1]
  }

  function Mean(xs: seq<real>): real
    requires |xs| > 0
  {
    Sum(xs) / (|xs| as real)
  }

  /** The window of `window` rows that ends at row `t`. */
  function Window(xs: seq<real>, window: nat, t: nat): (w: seq<real>)
    requires 0 < window <= t + 1 <= |xs|
    ensures |w| == window
  {
    xs[t + 1 - window .. t + 1]
  }

  /** `xs.rolling(window).mean()` */
  function RollingMean(xs: seq<real>, window: nat): (col: seq<Cell>)
    requires window > 0
    ensures |col| == |xs|
    ensures forall t :: 0 <= t < |xs| ==> (col[t].Num? <==> t + 1 >= window)
    ensures forall t :: window <= t + 1 <= |xs| ==> col[t] == Num(Mean(Window(xs, window, t)))
  {
    seq(|xs|, t requires 0 <= t < |xs| =>
      if t + 1 < window then NaN else Num(Mean(Window(xs, window, t))))
  }

  /** `xs.rolling(window).std()`, with the deviation of one window given by `stdev`. */
  function RollingStd(xs: seq<real>, window: nat, stdev: seq<real> -> real): (col: seq<Cell>)
    requires window > 0
    ensures |col| == |xs|
    ensures forall t :: 0 <= t < |xs| ==> (col[t].Num? <==> t + 1 >= window)
    ensures forall t :: window <= t + 1 <= |xs| ==> col[t] == Num(stdev(Window(xs, window, t)))
  {
    seq(|xs|, t requires 0 <= t < |xs| =>
      if t + 1 < window then NaN else Num(stdev(Window(xs, window, t))))
  }

  /** Smoothing factor of an EMA with the given span. */
  function Alpha(span: nat): (a: real)
    requires span >= 1
    ensures 0.0 < a <= 1.0
  {
    2.0 / ((span + 1) as real)
  }

  /**
   * `xs.ewm(span, adjust=False).mean()` at row t, as pandas defines it:
   * the first value is the first price, then e(t) = a * x(t) + (1 - a) * e(t - 1).
   */
  function EmaAt(xs: seq<real>, alpha: real, t: nat): real
    requires t < |xs|
  {
    if t == 0 then xs[0] else alpha * xs[t] + (1.0 - alpha) * EmaAt(xs, alpha, t - 1)
  }

  function Ema(xs: seq<real>, span: nat): (col: seq<real>)
    requires span >= 1
    ensures |col| == |xs|
    ensures forall t :: 0 <= t < |xs| ==> col[t] == EmaAt(xs, Alpha(span), t)
  {
    seq(|xs|, t requires 0 <= t < |xs| => EmaAt(xs, Alpha(span), t))
  }

  /** Row-by-row difference of two columns of the same length. */
  function Diff(a: seq<real>, b: seq<real>): (col: seq<real>)
    requires |a| == |b|
    ensures |col| == |a|
    ensures forall t :: 0 <= t < |a| ==> col[t] == a[t] - b[t]
  {
    seq(|a|, t requires 0 <= t < |a| => a[t] - b[t])
  }

  /** `mid + k * dev` (k > 0) or `mid - k * dev` (k < 0), row by row, NaN where either is NaN. */
  function Band(mid: seq<Cell>, dev: seq<Cell>, k: real): (col: seq<Cell>)
    requires |mid| == |dev|
    ensures |col| == |mid|
    ensures forall t :: 0 <= t < |mid| ==> col[t] == CellAdd(mid[t], CellScale(k, dev[t]))
  {
    seq(|mid|, t requires 0 <= t < |mid| => CellAdd(mid[t], CellScale(k, dev[t])))
  }

  /** A price table with the columns calculate_indicators adds. */
  datatype Table = Table(
    close: seq<real>,
    sma15: seq<Cell>,
    sma20: seq<Cell>,
    upper: seq<Cell>,
    lower: seq<Cell>,
    macd: seq<real>,
    signal: seq<real>,
    hist: seq<real>)
  {
    function Rows(): nat
    {
      |close|
    }

    /** Every added column has one entry per row. */
    predicate Aligned()
    {
      && |sma15| == |close| && |sma20| == |close|
      && |upper| == |close| && |lower| == |close|
      && |macd| == |close| && |signal| == |close| && |hist| == |close|
    }

    /** The table as it stood after its first n rows (every column cut at n). */
    function Upto(n: nat): (tb: Table)
      requires Aligned() && n <= Rows()
      ensures tb.Aligned() && tb.Rows() == n
    {
      Table(close[..n], sma15[..n], sma20[..n], upper[..n], lower[..n],
            macd[..n], signal[..n], hist[..n])
    }
  }

  /** The columns calculate_indicators adds to a Close column, in the order it adds them. */
  function Augment(close: seq<real>, stdev: seq<real> -> real): (tb: Table)
    ensures tb.Aligned() && tb.close == close
    ensures forall t :: 0 <= t < |close| ==> tb.macd[t] == EmaAt(close, Alpha(FastSpan), t) - EmaAt(close, Alpha(SlowSpan), t)
    ensures forall t :: 0 <= t < |close| ==> tb.signal[t] == EmaAt(tb.macd, Alpha(SignalSpan), t)
    ensures forall t :: 0 <= t < |close| ==> tb.hist[t] == tb.macd[t] - tb.signal[t]
    ensures forall t :: 0 <= t < |close| ==> (tb.sma15[t].Num? <==> t + 1 >= ShortWindow)
    ensures forall t :: 0 <= t < |close| ==>
      && (tb.sma20[t].Num? <==> t + 1 >= BandWindow)
      && (tb.upper[t].Num? <==> t + 1 >= BandWindow)
      && (tb.lower[t].Num? <==> t + 1 >= BandWindow)
    ensures forall t :: ShortWindow <= t + 1 <= |close| ==> tb.sma15[t].v == Mean(Window(close, ShortWindow, t))
    ensures forall t :: BandWindow <= t + 1 <= |close| ==>
      && tb.sma20[t].v == Mean(Window(close, BandWindow, t))
      && tb.upper[t].v - tb.sma20[t].v == tb.sma20[t].v - tb.lower[t].v
      && tb.upper[t].v - tb.sma20[t].v == BandWidth * stdev(Window(close, BandWindow, t))
  {
    var sma20 := RollingMean(close, BandWindow);
    var std := RollingStd(close, BandWindow, stdev);
    var macd := Diff(Ema(close, FastSpan), Ema(close, SlowSpan));
    var signal := Ema(macd, SignalSpan);
    Table(close, RollingMean(close, ShortWindow), sma20,
          Band(sma20, std, BandWidth), Band(sma20, std, -BandWidth),
          macd, signal, Diff(macd, signal))
  }

  /** calculate_indicators as a value: None below MinRows rows, otherwise the augmented table. */
  function IndicatorTable(close: seq<real>, stdev: seq<real> -> real): (r: Option<Table>)
    ensures r.None? <==> |close| < MinRows
    ensures r.Some? ==> r.value == Augment(close, stdev)
  {
    if |close| < MinRows then None else Some(Augment(close, stdev))
  }

  /** With a non-negative deviation the band brackets its middle line: Lower <= SMA20 <= Upper. */
  lemma BandsBracketMean(close: seq<real>, stdev: seq<real> -> real, t: nat)
    requires NonNegative(stdev)
    requires BandWindow <= t + 1 <= |close|
    ensures var tb := Augment(close, stdev);
      tb.lower[t].v <= tb.sma20[t].v <= tb.upper[t].v
  {
  }

  lemma {:induction false} SumOfConstant(xs: seq<real>, c: real)
    requires forall i :: 0 <= i < |xs| ==> xs[i] == c
    ensures Sum(xs) == (|xs| as real) * c
  {
    if xs != [] {
      SumOfConstant(xs[..|xs| - 1], c);
    }
  }

  /** The moving average of a flat window is the price itself. */
  lemma MeanOfConstant(xs: seq<real>, c: real)
    requires |xs| > 0
    requires forall i :: 0 <= i < |xs| ==> xs[i] == c
    ensures Mean(xs) == c
  {
    SumOfConstant(xs, c);
  }

  /**
   * An EMA never leaves the range of the prices seen so far: each step is a
   * convex combination of the new price and the previous average.
   */
  lemma {:induction false} EmaWithinRange(xs: seq<real>, alpha: real, t: nat, lo: real, hi: real)
    requires 0.0 < alpha <= 1.0
    requires t < |xs|
    requires forall i :: 0 <= i <= t ==> lo <= xs[i] <= hi
    ensures lo <= EmaAt(xs, alpha, t) <= hi
  {
    if t > 0 {
      EmaWithinRange(xs, alpha, t - 1, lo, hi);
      ConvexStep(alpha, xs[t], EmaAt(xs, alpha, t - 1), lo, hi);
    }
  }

  /** One EMA step stays between any bounds of the new price and of the previous average. */
  lemma ConvexStep(alpha: real, x: real, e: real, lo: real, hi: real)
    requires 0.0 < alpha <= 1.0
    requires lo <= x <= hi && lo <= e <= hi
    ensures lo <= alpha * x + (1.0 - alpha) * e <= hi
  {
    assert alpha * x + (1.0 - alpha) * e - lo == alpha * (x - lo) + (1.0 - alpha) * (e - lo);
    assert hi - (alpha * x + (1.0 - alpha) * e) == alpha * (hi - x) + (1.0 - alpha) * (hi - e);
    NonNegativeProduct(alpha, x - lo);
    NonNegativeProduct(1.0 - alpha, e - lo);
    NonNegativeProduct(alpha, hi - x);
    NonNegativeProduct(1.0 - alpha, hi - e);
  }

  lemma NonNegativeProduct(p: real, q: real)
    requires p >= 0.0 && q >= 0.0
    ensures p * q >= 0.0
  {
  }

  /**
   * The DataFrame that calculate_indicators mutates: its Close column and the
   * columns the function adds in place.  A fresh download has none of the
   * added columns (they are empty here).
   */
  class Frame {
    var close: seq<real>
    var sma15: seq<Cell>
    var sma20: seq<Cell>
    var upper: seq<Cell>
    var lower: seq<Cell>
    var macd: seq<real>
    var signal: seq<real>
    var hist: seq<real>

    constructor (close: seq<real>)
      ensures Snapshot() == Table(close, [], [], [], [], [], [], [])
    {
      this.close := close;
      sma15, sma20, upper, lower := [], [], [], [];
      macd, signal, hist := [], [], [];
    }

    function Snapshot(): Table
      reads this
    {
      Table(close, sma15, sma20, upper, lower, macd, signal, hist)
    }

    function Rows(): nat
      reads this
    {
      |close|
    }

    /** The indicator columns are present, one entry per row. */
    predicate HasIndicators()
      reads this
    {
      Snapshot().Aligned()
    }
  }

  /**
   * calculate_indicators: returns null (None) and leaves the frame alone when it
   * has fewer than MinRows rows; otherwise adds the indicator columns to the
   * frame itself and returns that same frame.
   */
  method CalculateIndicators(df: Frame, stdev: seq<real> -> real) returns (r: Frame?)
    modifies df
    ensures r == null <==> |old(df.close)| < MinRows
    ensures r == null ==> unchanged(df)
    ensures r != null ==> r == df && Some(df.Snapshot()) == IndicatorTable(old(df.close), stdev)
  {
    if |df.close| < MinRows {
      return null;
    }
    df.sma15 := RollingMean(df.close, ShortWindow);
    df.sma20 := RollingMean(df.close, BandWindow);
    var std := RollingStd(df.close, BandWindow, stdev);
    df.upper := Band(df.sma20, std, BandWidth);
    df.lower := Band(df.sma20, std, -BandWidth);
    var exp12 := Ema(df.close, FastSpan);
    var exp26 := Ema(df.close, SlowSpan);
    df.macd := Diff(exp12, exp26);
    df.signal := Ema(df.macd, SignalSpan);
    df.hist := Diff(df.macd, df.signal);
    r := df;
  }
}
