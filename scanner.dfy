/**
 * The per-symbol pipeline `process_stock` (app.py:77-94) and the loop that
 * collects its results and drives the progress bar (app.py:118-127).
 *
 * The price download is a parameter: `download(ticker)` is what
 * `yf.download(ticker, period="2y", interval="1wk")` gave for that ticker.
 * The thread pool is not modelled; the loop reads the per-symbol outcomes in
 * the order the symbols were submitted, as the source does.
 */
module Scanner {
  import opened Wrappers
  import opened Indicators
  import opened Strategies

  /** What the download of one ticker gave: it raised, or it returned a Close column (empty when no data). */
  datatype Download = Failed | Fetched(close: seq<real>)

  /** The separator between a listing's code and its name, e.g. "2330  台積電". */
  const Separator: string := "  "

  /** Suffix of the Taiwan Stock Exchange on the price provider. */
  const ExchangeSuffix: string := ".TW"

  /** A match record; `table` is the frame with its indicator columns. */
  datatype Record = Record(symbol: string, table: Table, matches: seq<string>, price: real)

  /** The separator starts at position i of s. */
  predicate SeparatorAt(s: string, i: nat)
  {
    i + 2 <= |s| && s[i..i + 2] == Separator
  }

  /** `s.split('  ')[0]`: the text before the first separator, or all of s when there is none. */
  function CodeOf(s: string): (code: string)
    ensures code <= s
    ensures forall i :: 0 <= i < |code| ==> !SeparatorAt(s, i)
    ensures code == s || SeparatorAt(s, |code|)
  {
    if |s| < 2 then s
    else if s[..2] == Separator then ""
    else
      var rest := CodeOf(s[1..]);
      assert forall i :: 1 <= i <= |rest| ==> (SeparatorAt(s, i) <==> SeparatorAt(s[1..], i - 1)) by {
        forall i | 1 <= i <= |rest| ensures SeparatorAt(s, i) <==> SeparatorAt(s[1..], i - 1) {
          if i + 2 <= |s| {
            assert s[i..i + 2] == s[1..][i - 1..i + 1];
          }
        }
      }
      [s[0]] + rest
  }

  /** The ticker process_stock downloads for a listing string. */
  function Ticker(stockStr: string): (ticker: string)
    ensures CodeOf(stockStr) <= ticker
    ensures ticker[|CodeOf(stockStr)|..] == ExchangeSuffix
  {
    CodeOf(stockStr) + ExchangeSuffix
  }

  /** Last close of a non-empty Close column. */
  function LastClose(close: seq<real>): real
    requires |close| > 0
  {
    close[|close| - 1]
  }

  /**
   * process_stock: every guard that fails, and the exception a failed download
   * raises, gives None; otherwise a record for the listing.
   */
  function ProcessStock(stockStr: string, strategies: seq<string>, minP: real, maxP: real,
                        download: string -> Download, stdev: seq<real> -> real): (r: Option<Record>)
    ensures var d := download(Ticker(stockStr));
      r.Some? <==>
        && d.Fetched?
        && |d.close| >= MinRows
        && minP <= d.close[|d.close| - 1] <= maxP
        && Matches(Augment(d.close, stdev), strategies) != []
    ensures r.Some? ==>
      var close := download(Ticker(stockStr)).close;
      && r.value.symbol == stockStr
      && r.value.price == close[|close| - 1]
      && r.value.table.close == close
      && r.value.table == Augment(close, stdev)
      && r.value.matches == Matches(r.value.table, strategies)
  {
    match download(Ticker(stockStr))
    case Failed => None
    case Fetched(close) =>
      if |close| == 0 || |close| < MinRows then None
      else
        var price := LastClose(close);
        if !(minP <= price <= maxP) then None
        else
          match IndicatorTable(close, stdev)
          case None => None
          case Some(df) =>
            var matches := Matches(df, strategies);
            if matches != [] then Some(Record(stockStr, df, matches, price)) else None
  }

  /** The records among the per-symbol outcomes, in the order of the outcomes. */
  function Collected(outcomes: seq<Option<Record>>): (records: seq<Record>)
    ensures |records| <= |outcomes|
  {
    if outcomes == [] then []
    else
      var last := outcomes[|outcomes| - 1];
      Collected(outcomes[..|outcomes| - 1]) + (if last.Some? then [last.value] else [])
  }

  /** The futures list: process_stock applied to every target, in submission order. */
  function Outcomes(targets: seq<string>, strategies: seq<string>, minP: real, maxP: real,
                    download: string -> Download, stdev: seq<real> -> real): (outcomes: seq<Option<Record>>)
    ensures |outcomes| == |targets|
    ensures forall i :: 0 <= i < |targets| ==> outcomes[i] == ProcessStock(targets[i], strategies, minP, maxP, download, stdev)
  {
    seq(|targets|, i requires 0 <= i < |targets| => ProcessStock(targets[i], strategies, minP, maxP, download, stdev))
  }

  /** The value the progress bar shows after the i-th symbol (0-based) of n. */
  function ProgressAfter(i: nat, n: nat): real
    requires i < n
  {
    (i + 1) as real / n as real
  }

  /**
   * The fan-in loop: walks the per-symbol outcomes in submission order, keeps
   * the non-None ones and reports progress once per symbol.  `progress` is the
   * sequence of values given to the progress bar.
   */
  method CollectResults(futures: seq<Option<Record>>) returns (results: seq<Record>, progress: seq<real>)
    ensures results == Collected(futures)
    ensures |progress| == |futures|
    ensures forall i :: 0 <= i < |futures| ==> progress[i] == ProgressAfter(i, |futures|)
  {
    results := [];
    progress := [];
    var i := 0;
    while i < |futures|
      invariant 0 <= i <= |futures|
      invariant results == Collected(futures[..i])
      invariant |progress| == i
      invariant forall k :: 0 <= k < i ==> progress[k] == ProgressAfter(k, |futures|)
    {
      var res := futures[i];
      assert futures[..i + 1][..i] == futures[..i];
      if res.Some? {
        results := results + [res.value];
      }
      progress := progress + [(i + 1) as real / |futures| as real];
      i := i + 1;
    }
    assert futures[..i] == futures;
  }

  /** The scan: one process_stock task per target, then the fan-in over their outcomes. */
  method Scan(targets: seq<string>, strategies: seq<string>, minP: real, maxP: real,
              download: string -> Download, stdev: seq<real> -> real)
    returns (results: seq<Record>, progress: seq<real>)
    ensures results == Collected(Outcomes(targets, strategies, minP, maxP, download, stdev))
    ensures |progress| == |targets|
    ensures forall i :: 0 <= i < |targets| ==> progress[i] == ProgressAfter(i, |targets|)
  {
    var futures := Outcomes(targets, strategies, minP, maxP, download, stdev);
    results, progress := CollectResults(futures);
  }

  /** Collecting distributes over concatenation: the order of the outcomes is kept. */
  lemma {:induction false} CollectedAppend(a: seq<Option<Record>>, b: seq<Option<Record>>)
    ensures Collected(a + b) == Collected(a) + Collected(b)
    decreases |b|
  {
    if b == [] {
      assert a + b == a;
    } else {
      var b' := b[..|b| - 1];
      assert (a + b)[..|a + b| - 1] == a + b';
      assert (a + b)[|a + b| - 1] == b[|b| - 1];
      CollectedAppend(a, b');
    }
  }

  /** Every collected record is one of the outcomes, and every Some outcome is collected. */
  lemma {:induction false} CollectedMembers(outcomes: seq<Option<Record>>)
    ensures forall x :: x in Collected(outcomes) <==> Some(x) in outcomes
  {
    if outcomes != [] {
      var front := outcomes[..|outcomes| - 1];
      CollectedMembers(front);
      assert outcomes == front + [outcomes[|outcomes| - 1]];
    }
  }

  /** Outcomes that are all None collect to nothing. */
  lemma {:induction false} NothingToCollect(outcomes: seq<Option<Record>>)
    requires forall i :: 0 <= i < |outcomes| ==> outcomes[i].None?
    ensures Collected(outcomes) == []
  {
    if outcomes != [] {
      NothingToCollect(outcomes[..|outcomes| - 1]);
    }
  }

  /** A symbol that fails is dropped and nothing else changes: the others' records stay, in order. */
  lemma FailureIsIsolated(outcomes: seq<Option<Record>>, k: nat)
    requires k < |outcomes|
    ensures Collected(outcomes[k := None]) == Collected(outcomes[..k]) + Collected(outcomes[k + 1..])
    ensures Collected(outcomes) == Collected(outcomes[..k]) + Collected([outcomes[k]]) + Collected(outcomes[k + 1..])
  {
    var failed := outcomes[k := None];
    assert failed == outcomes[..k] + [None] + outcomes[k + 1..];
    assert outcomes == outcomes[..k] + [outcomes[k]] + outcomes[k + 1..];
    CollectedAppend(outcomes[..k] + [None], outcomes[k + 1..]);
    CollectedAppend(outcomes[..k], [None]);
    CollectedAppend(outcomes[..k] + [outcomes[k]], outcomes[k + 1..]);
    CollectedAppend(outcomes[..k], [outcomes[k]]);
  }

  /** When every download fails the scan finds nothing. */
  lemma AllFailedScanFindsNothing(targets: seq<string>, strategies: seq<string>, minP: real, maxP: real,
                                  download: string -> Download, stdev: seq<real> -> real)
    requires forall s :: s in targets ==> download(Ticker(s)) == Failed
    ensures Collected(Outcomes(targets, strategies, minP, maxP, download, stdev)) == []
  {
    var outcomes := Outcomes(targets, strategies, minP, maxP, download, stdev);
    assert forall i :: 0 <= i < |outcomes| ==> outcomes[i] == None;
    NothingToCollect(outcomes);
  }

  /** Every progress value lies in (0, 1]. */
  lemma ProgressIsBounded(i: nat, n: nat)
    requires i < n
    ensures 0.0 < ProgressAfter(i, n) <= 1.0
  {
    var total := n as real;
    assert ProgressAfter(i, n) * total == (i + 1) as real;
    assert (1.0 - ProgressAfter(i, n)) * total >= 0.0;
  }

  /** Progress is exactly 1 after the last symbol, for any non-empty scan. */
  lemma ProgressEndsAtOne(n: nat)
    requires 0 < n
    ensures ProgressAfter(n - 1, n) == 1.0
  {
  }

  /** Progress rises strictly with every symbol. */
  lemma ProgressIsMonotone(i: nat, j: nat, n: nat)
    requires i < j < n
    ensures ProgressAfter(i, n) < ProgressAfter(j, n)
  {
  }

  /** The price filter is inclusive: a last close equal to either bound passes it. */
  lemma PriceBoundsAreInclusive(stockStr: string, strategies: seq<string>, minP: real, maxP: real,
                                download: string -> Download, stdev: seq<real> -> real)
    requires download(Ticker(stockStr)).Fetched?
    requires var close := download(Ticker(stockStr)).close;
      && |close| >= MinRows
      && minP <= maxP
      && (close[|close| - 1] == minP || close[|close| - 1] == maxP)
      && Matches(Augment(close, stdev), strategies) != []
    ensures ProcessStock(stockStr, strategies, minP, maxP, download, stdev).Some?
  {
  }
}
