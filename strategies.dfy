/**
 * The rule evaluator `check_strategies` (app.py:54-74).  Only the last three
 * rows of the indicator table are read; the labels come out in a fixed order,
 * S8 first.
 */
module Strategies {
  import opened Indicators

  /** Identifiers a caller puts in the requested strategy list. */
  const S8: string := "S8"
  const S3: string := "S3"

  /** The labels check_strategies appends for a match. */
  const MacdAscentLabel: string := "MACD 緩步爬升"
  const BandBreakoutLabel: string := "突破布林上軌"

  /** `x > c` on a pandas cell: false when the cell is NaN. */
  predicate Above(x: real, c: Cell)
  {
    c.Num? && x > c.v
  }

  /** `x <= c` on a pandas cell: also false when the cell is NaN. */
  predicate AtOrBelow(x: real, c: Cell)
  {
    c.Num? && x <= c.v
  }

  /** S8 at row t: MACD rising over three rows, above its signal line, with a positive histogram. */
  predicate MacdAscent(tb: Table, t: nat)
    requires tb.Aligned() && 2 <= t < tb.Rows()
  {
    && tb.macd[t] > tb.macd[t - 1] > tb.macd[t - 2]
    && tb.macd[t] > tb.signal[t]
    && tb.hist[t] > 0.0
  }

  /** S3 at row t: the close crosses above the upper band at t after being at or below it at t - 1. */
  predicate BandBreakout(tb: Table, t: nat)
    requires tb.Aligned() && 1 <= t < tb.Rows()
  {
    Above(tb.close[t], tb.upper[t]) && AtOrBelow(tb.close[t - 1], tb.upper[t - 1])
  }

  /** The labels check_strategies returns for a table and a list of requested strategies. */
  function Matches(tb: Table, strategies: seq<string>): (r: seq<string>)
    requires tb.Aligned() && tb.Rows() >= 3
    ensures var t := tb.Rows() - 1;
      MacdAscentLabel in r <==>
        && S8 in strategies
        && tb.macd[t] > tb.macd[t - 1] > tb.macd[t - 2]
        && tb.macd[t] > tb.signal[t]
        && tb.hist[t] > 0.0
    ensures var t := tb.Rows() - 1;
      BandBreakoutLabel in r <==>
        && S3 in strategies
        && tb.upper[t].Num? && tb.close[t] > tb.upper[t].v
        && tb.upper[t - 1].Num? && tb.close[t - 1] <= tb.upper[t - 1].v
    ensures forall x :: x in r ==> x == MacdAscentLabel || x == BandBreakoutLabel
    ensures forall i, j :: 0 <= i < j < |r| ==> r[i] == MacdAscentLabel && r[j] == BandBreakoutLabel
    ensures |r| <= 2
    ensures S8 !in strategies && S3 !in strategies ==> r == []
  {
    var t := tb.Rows() - 1;
    assert MacdAscentLabel[0] != BandBreakoutLabel[0];
    (if S8 in strategies && MacdAscent(tb, t) then [MacdAscentLabel] else [])
    + (if S3 in strategies && BandBreakout(tb, t) then [BandBreakoutLabel] else [])
  }

  /**
   * check_strategies on the frame calculate_indicators filled in: the labels are
   * appended one rule after the other.
   */
  method CheckStrategies(df: Frame, strategies: seq<string>) returns (results: seq<string>)
    requires df.HasIndicators() && df.Rows() >= 3
    ensures results == Matches(df.Snapshot(), strategies)
  {
    var t := |df.close| - 1;
    results := [];
    if S8 in strategies {
      var cond := df.macd[t] > df.macd[t - 1] > df.macd[t - 2]
        && df.macd[t] > df.signal[t]
        && df.hist[t] > 0.0;
      if cond {
        results := results + [MacdAscentLabel];
      }
    }
    if S3 in strategies {
      if Above(df.close[t], df.upper[t]) && AtOrBelow(df.close[t - 1], df.upper[t - 1]) {
        results := results + [BandBreakoutLabel];
      }
    }
  }

  /** Row i of a and row j of b agree in every column the rules read. */
  predicate SameRow(a: Table, i: nat, b: Table, j: nat)
    requires a.Aligned() && b.Aligned() && i < a.Rows() && j < b.Rows()
  {
    && a.close[i] == b.close[j]
    && a.upper[i] == b.upper[j]
    && a.macd[i] == b.macd[j]
    && a.signal[i] == b.signal[j]
    && a.hist[i] == b.hist[j]
  }

  /** Two tables agree on their last three rows. */
  predicate SameLastThreeRows(a: Table, b: Table)
    requires a.Aligned() && b.Aligned() && a.Rows() >= 3 && b.Rows() >= 3
  {
    && SameRow(a, a.Rows() - 1, b, b.Rows() - 1)
    && SameRow(a, a.Rows() - 2, b, b.Rows() - 2)
    && SameRow(a, a.Rows() - 3, b, b.Rows() - 3)
  }

  /** The result depends on the last three rows only: earlier rows, and the table's length, never matter. */
  lemma MatchesReadOnlyLastThreeRows(a: Table, b: Table, strategies: seq<string>)
    requires a.Aligned() && b.Aligned() && a.Rows() >= 3 && b.Rows() >= 3
    requires SameLastThreeRows(a, b)
    ensures Matches(a, strategies) == Matches(b, strategies)
  {
  }

  /**
   * A breakout is reported on the crossing week only: if the scan of the first
   * n rows reports it, the scan one row later cannot, whatever that row holds.
   */
  lemma BreakoutIsReportedOnce(tb: Table, n: nat, strategies: seq<string>)
    requires tb.Aligned() && 3 <= n < tb.Rows()
    requires BandBreakoutLabel in Matches(tb.Upto(n), strategies)
    ensures BandBreakoutLabel !in Matches(tb.Upto(n + 1), strategies)
  {
  }

  /** A flat price history matches neither rule: MACD stays at zero and the close never clears its band. */
  lemma FlatPricesMatchNothing(close: seq<real>, c: real, stdev: seq<real> -> real, strategies: seq<string>)
    requires |close| >= MinRows
    requires forall i :: 0 <= i < |close| ==> close[i] == c
    requires NonNegative(stdev)
    ensures Matches(Augment(close, stdev), strategies) == []
  {
    var tb := Augment(close, stdev);
    var t := |close| - 1;
    forall i | 0 <= i < |close|
      ensures tb.macd[i] == 0.0
    {
      EmaWithinRange(close, Alpha(FastSpan), i, c, c);
      EmaWithinRange(close, Alpha(SlowSpan), i, c, c);
    }
    MeanOfConstant(Window(close, BandWindow, t), c);
    BandsBracketMean(close, stdev, t);
  }
}
