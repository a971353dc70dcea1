/** `analyze_stock` from the moment the downloaded frame is in hand: the
    early return on an empty frame, the indicator columns added in place,
    the latest values and the scenario decision. The download itself, the
    report formatting and the chart are outside this model; the closing
    prices are the input. */
module Analysis {
  import opened Series
  import opened Indicators
  import opened Decision

  /** The latest close and indicator values (`iloc[-1]`); a missing
      indicator stands for a NaN value. */
  datatype Snapshot = Snapshot(close: real, ma20: Option<real>, ma50: Option<real>, rsi: Option<real>)

  /** What a non-empty frame yields: the latest values, the scenario and its text. */
  datatype Outcome = Outcome(latest: Snapshot, scenario: Scenario, decision: string)

  /** The last entry of every column. */
  function Latest(close: seq<real>): (s: Snapshot)
    requires |close| > 0
    ensures s.close == close[|close| - 1]
  {
    Snapshot(Last(close), Last(MovingAverage(close, ShortWindow)),
             Last(MovingAverage(close, LongWindow)), Last(Rsi(close)))
  }

  /** The snapshot holds the last entry of each column. */
  lemma LatestColumns(close: seq<real>)
    requires |close| > 0
    ensures Latest(close).ma20 == MovingAverage(close, ShortWindow)[|close| - 1]
    ensures Latest(close).ma50 == MovingAverage(close, LongWindow)[|close| - 1]
    ensures Latest(close).rsi == Rsi(close)[|close| - 1]
  {
  }

  /** The last entries of the columns. The latest averages exist once 20 and 50 closes do and are the means
      of the last 20 and 50 closes; the latest RSI exists once 15 closes do,
      unless the last 15 are all equal, and lies in [0, 100]. */
  lemma LatestValues(close: seq<real>)
    requires |close| > 0
    ensures MovingAverage(close, ShortWindow)[|close| - 1].Some? <==> ShortWindow <= |close|
    ensures MovingAverage(close, LongWindow)[|close| - 1].Some? <==> LongWindow <= |close|
    ensures ShortWindow <= |close| ==>
      MovingAverage(close, ShortWindow)[|close| - 1].value == Mean(close[|close| - ShortWindow ..])
    ensures LongWindow <= |close| ==>
      MovingAverage(close, LongWindow)[|close| - 1].value == Mean(close[|close| - LongWindow ..])
    ensures Rsi(close)[|close| - 1].None? <==>
      |close| <= RsiWindow || forall k :: |close| - 1 - RsiWindow <= k < |close| ==> close[k] == close[|close| - 1]
    ensures Rsi(close)[|close| - 1].Some? ==> 0.0 <= Rsi(close)[|close| - 1].value <= 100.0
  {
    var i := |close| - 1;
    MovingAverageAt(close, ShortWindow, i);
    MovingAverageAt(close, LongWindow, i);
    if ShortWindow <= |close| {
      assert close[i + 1 - ShortWindow .. i + 1] == close[|close| - ShortWindow ..];
    }
    if LongWindow <= |close| {
      assert close[i + 1 - LongWindow .. i + 1] == close[|close| - LongWindow ..];
    }
    RsiUndefinedIff(close, i);
    RsiRange(close, i);
  }

  /** The whole computation as a value: nothing for an empty frame (the
      `(None, None)` return), otherwise the scenario of the latest values
      and its text. */
  function Analyze(close: seq<real>): (r: Option<Outcome>)
    ensures r.None? <==> |close| == 0
    ensures r.Some? ==> r.value.decision == DecisionText(r.value.scenario)
  {
    if |close| == 0 then None else Some(OutcomeOf(Latest(close)))
  }

  /** The evaluation of a snapshot: its scenario and that scenario's text. */
  function OutcomeOf(latest: Snapshot): (r: Outcome)
    ensures r.latest == latest
    ensures r.decision == DecisionText(r.scenario)
  {
    var scenario := Classify(latest.ma20, latest.ma50, latest.rsi);
    Outcome(latest, scenario, DecisionText(scenario))
  }

  /** The frame `yf.download` returns, reduced to its closing prices, and
      the columns `analyze_stock` writes into it. */
  class PriceFrame {
    var close: seq<real>
    var columns: map<string, seq<Option<real>>>

    constructor (prices: seq<real>)
      ensures close == prices && columns == map[]
    {
      close := prices;
      columns := map[];
    }

    /** Adds the "MA20", "MA50" and "RSI" columns (unless the frame is
        empty, in which case nothing changes and nothing is produced),
        then reads their last entries and classifies them. */
    method AnalyzeStock() returns (r: Option<Outcome>)
      modifies this
      ensures close == old(close)
      ensures r == Analyze(close)
      ensures |close| == 0 ==> columns == old(columns)
      ensures |close| > 0 ==> columns == old(columns)
        ["MA20" := MovingAverage(close, ShortWindow)]
        ["MA50" := MovingAverage(close, LongWindow)]
        ["RSI" := Rsi(close)]
    {
      if |close| == 0 {
        return None;
      }
      columns := columns["MA20" := MovingAverage(close, ShortWindow)];
      columns := columns["MA50" := MovingAverage(close, LongWindow)];
      columns := columns["RSI" := Rsi(close)];
      var latest := Snapshot(Last(close), Last(columns["MA20"]), Last(columns["MA50"]), Last(columns["RSI"]));
      r := Some(OutcomeOf(latest));
    }
  }

  // -----------------------------------------------------------------------
  // What whole series lead to
  // -----------------------------------------------------------------------

  /** A short series raises no error: with fewer than 50 closes MA50 is
      missing and Favorable impossible; with 14 or fewer the RSI is missing
      too and the result is Neutral. */
  lemma ShortSeries(close: seq<real>)
    requires 0 < |close| < LongWindow
    ensures Analyze(close).Some?
    ensures Analyze(close).value.scenario != Favorable
    ensures |close| <= RsiWindow ==> Analyze(close).value.scenario == Neutral
  {
    LatestValues(close);
    AnalyzeColumns(close);
  }

  /** The last column entries of a series of equal closes: both averages
      (once they exist) equal the close, and the RSI is missing (0/0). */
  lemma ConstantColumns(close: seq<real>, p: real)
    requires 0 < |close|
    requires forall k :: 0 <= k < |close| ==> close[k] == p
    ensures Rsi(close)[|close| - 1].None?
    ensures ShortWindow <= |close| ==> MovingAverage(close, ShortWindow)[|close| - 1] == Some(p)
    ensures LongWindow <= |close| ==> MovingAverage(close, LongWindow)[|close| - 1] == Some(p)
  {
    var i := |close| - 1;
    if ShortWindow <= |close| {
      MovingAverageConstant(close, ShortWindow, i, p);
    }
    if LongWindow <= |close| {
      MovingAverageConstant(close, LongWindow, i, p);
    }
    RsiUndefinedIff(close, i);
  }

  /** Equal closes give averages equal to that close and an undefined RSI
      (0/0), hence Neutral rather than Risk. */
  lemma ConstantSeries(close: seq<real>, p: real)
    requires 0 < |close|
    requires forall k :: 0 <= k < |close| ==> close[k] == p
    ensures Analyze(close).Some?
    ensures Analyze(close).value.latest.rsi.None?
    ensures ShortWindow <= |close| ==> Analyze(close).value.latest.ma20 == Some(p)
    ensures LongWindow <= |close| ==> Analyze(close).value.latest.ma50 == Some(p)
    ensures Analyze(close).value.scenario == Neutral
  {
    ConstantColumns(close, p);
    AnalyzeColumns(close);
  }

  predicate StrictlyRising(close: seq<real>)
  {
    forall j, k :: 0 <= j < k < |close| ==> close[j] < close[k]
  }

  predicate StrictlyFalling(close: seq<real>)
  {
    forall j, k :: 0 <= j < k < |close| ==> close[j] > close[k]
  }

  /** The outcome of a non-empty series holds the last entry of each column
      and is the classification of those entries. */
  lemma AnalyzeColumns(close: seq<real>)
    requires |close| > 0
    ensures Analyze(close).Some?
    ensures Analyze(close).value.latest.close == close[|close| - 1]
    ensures Analyze(close).value.latest.ma20 == MovingAverage(close, ShortWindow)[|close| - 1]
    ensures Analyze(close).value.latest.ma50 == MovingAverage(close, LongWindow)[|close| - 1]
    ensures Analyze(close).value.latest.rsi == Rsi(close)[|close| - 1]
    ensures Analyze(close).value.scenario == Classify(
      MovingAverage(close, ShortWindow)[|close| - 1],
      MovingAverage(close, LongWindow)[|close| - 1],
      Rsi(close)[|close| - 1])
  {
    LatestColumns(close);
  }

  /** The last 15 closes of a strictly rising series never fall. */
  lemma RisingWindow(close: seq<real>, i: nat)
    requires RsiWindow <= i < |close|
    requires StrictlyRising(close)
    ensures NonDecreasing(close[i - RsiWindow .. i + 1])
  {
    var w := close[i - RsiWindow .. i + 1];
    forall j, k | 0 <= j <= k < |w| ensures w[j] <= w[k] {
      assert w[j] == close[i - RsiWindow + j] && w[k] == close[i - RsiWindow + k];
    }
  }

  /** The last 15 closes of a strictly falling series never rise. */
  lemma FallingWindow(close: seq<real>, i: nat)
    requires RsiWindow <= i < |close|
    requires StrictlyFalling(close)
    ensures NonIncreasing(close[i - RsiWindow .. i + 1])
  {
    var w := close[i - RsiWindow .. i + 1];
    forall j, k | 0 <= j <= k < |w| ensures w[j] >= w[k] {
      assert w[j] == close[i - RsiWindow + j] && w[k] == close[i - RsiWindow + k];
    }
  }

  /** The last column entries of a strictly rising series: RSI 100, and
      MA20 above MA50 once both exist. */
  lemma RisingColumns(close: seq<real>)
    requires RsiWindow < |close|
    requires StrictlyRising(close)
    ensures Rsi(close)[|close| - 1] == Some(100.0)
    ensures LongWindow <= |close| ==> Gt(MovingAverage(close, ShortWindow)[|close| - 1], MovingAverage(close, LongWindow)[|close| - 1])
  {
    var i := |close| - 1;
    RisingWindow(close, i);
    RsiAllRises(close, i);
    if LongWindow <= |close| {
      MovingAverageTrendUp(close, i);
    }
  }

  /** The last column entries of a strictly falling series: RSI 0, and
      MA20 not above MA50 (below it once both exist). */
  lemma FallingColumns(close: seq<real>)
    requires RsiWindow < |close|
    requires StrictlyFalling(close)
    ensures Rsi(close)[|close| - 1] == Some(0.0)
    ensures LongWindow <= |close| ==> Gt(MovingAverage(close, LongWindow)[|close| - 1], MovingAverage(close, ShortWindow)[|close| - 1])
    ensures !Gt(MovingAverage(close, ShortWindow)[|close| - 1], MovingAverage(close, LongWindow)[|close| - 1])
  {
    var i := |close| - 1;
    FallingWindow(close, i);
    RsiAllFalls(close, i);
    if LongWindow <= |close| {
      MovingAverageTrendDown(close, i);
    } else {
      MovingAverageAt(close, LongWindow, i);
    }
  }

  /** Strictly rising closes (at least 15) give an RSI of 100 and so Risk,
      and, from 50 closes on, MA20 above MA50: the favorable test fails on
      the RSI, not on the trend. */
  lemma RisingSeries(close: seq<real>)
    requires RsiWindow < |close|
    requires StrictlyRising(close)
    ensures Analyze(close).Some?
    ensures Analyze(close).value.latest.rsi == Some(100.0)
    ensures LongWindow <= |close| ==> Gt(Analyze(close).value.latest.ma20, Analyze(close).value.latest.ma50)
    ensures Analyze(close).value.scenario == Risk
  {
    RisingColumns(close);
    AnalyzeColumns(close);
  }

  /** Strictly falling closes (at least 15) give an RSI of 0 and no upward
      trend of the averages, hence Speculative. */
  lemma FallingSeries(close: seq<real>)
    requires RsiWindow < |close|
    requires StrictlyFalling(close)
    ensures Analyze(close).Some?
    ensures Analyze(close).value.latest.rsi == Some(0.0)
    ensures LongWindow <= |close| ==> Gt(Analyze(close).value.latest.ma50, Analyze(close).value.latest.ma20)
    ensures Analyze(close).value.scenario == Speculative
  {
    FallingColumns(close);
    AnalyzeColumns(close);
  }

  // -----------------------------------------------------------------------
  // A worked example: 60 closes rising by 1 from 100 to 159
  // -----------------------------------------------------------------------

  /** m closes a, a + 1, ..., a + m - 1. */
  function Ramp(a: real, m: nat): seq<real>
  {
    seq(m, k requires 0 <= k < m => a + k as real)
  }

  lemma {:induction false} SumRamp(a: real, m: nat)
    ensures Sum(Ramp(a, m)) == (m as real) * a + (m as real) * (m as real - 1.0) / 2.0
    decreases m
  {
    if m > 0 {
      assert Ramp(a, m)[1..] == Ramp(a + 1.0, m - 1);
      SumRamp(a + 1.0, m - 1);
      var n := (m - 1) as real;
      assert (m as real) == n + 1.0;
      assert Sum(Ramp(a, m)) == a + n * (a + 1.0) + n * (n - 1.0) / 2.0;
      assert n * (a + 1.0) == n * a + n;
      assert (n + 1.0) * a == n * a + a;
      assert (n + 1.0) * n / 2.0 == n + n * (n - 1.0) / 2.0;
    }
  }

  lemma RampMean(a: real, m: nat)
    requires m > 0
    ensures Mean(Ramp(a, m)) == a + (m as real - 1.0) / 2.0
  {
    SumRamp(a, m);
    var n := m as real;
    var c := a + (n - 1.0) / 2.0;
    assert Sum(Ramp(a, m)) == n * c;
    assert n * c / n == c;
  }

  /** The latest n-session average of a ramp of m >= n closes lies
      (n - 1)/2 below the last close. */
  lemma RampMovingAverage(a: real, m: nat, n: nat)
    requires 0 < n <= m
    ensures MovingAverage(Ramp(a, m), n)[m - 1] == Some(a + (m as real) - (n as real + 1.0) / 2.0)
  {
    MovingAverageAt(Ramp(a, m), n, m - 1);
    RampSlice(a, m, n);
    RampMean(a + (m - n) as real, n);
  }

  /** The last n closes of a ramp are a ramp themselves. */
  lemma RampSlice(a: real, m: nat, n: nat)
    requires n <= m
    ensures Ramp(a, m)[m - n .. m] == Ramp(a + (m - n) as real, n)
  {
    var t, u := Ramp(a, m)[m - n .. m], Ramp(a + (m - n) as real, n);
    forall k | 0 <= k < n ensures t[k] == u[k] {
      assert t[k] == Ramp(a, m)[m - n + k];
    }
  }

  lemma RampRising(a: real, m: nat)
    ensures StrictlyRising(Ramp(a, m))
  {
  }

  /** Closes rising by 1 per session (at least 50 of them) end with MA20
      9.5 and MA50 24.5 below the last close and an RSI of 100. */
  lemma RampColumns(a: real, m: nat)
    requires LongWindow <= m
    ensures MovingAverage(Ramp(a, m), ShortWindow)[m - 1] == Some(a + m as real - 10.5)
    ensures MovingAverage(Ramp(a, m), LongWindow)[m - 1] == Some(a + m as real - 25.5)
    ensures Rsi(Ramp(a, m))[m - 1] == Some(100.0)
  {
    RampMovingAverage(a, m, ShortWindow);
    RampMovingAverage(a, m, LongWindow);
    RampRising(a, m);
    RisingColumns(Ramp(a, m));
  }

  /** The rising series 100, 101, ..., 159 gives MA20 = 149.5, MA50 = 134.5
      and RSI = 100, so Risk: the favorable test fails because the RSI is
      not below 70. */
  lemma LinearRiseExample()
    ensures Analyze(Ramp(100.0, 60)).Some?
    ensures Analyze(Ramp(100.0, 60)).value.latest == Snapshot(159.0, Some(149.5), Some(134.5), Some(100.0))
    ensures Analyze(Ramp(100.0, 60)).value.scenario == Risk
  {
    RampColumns(100.0, 60);
    AnalyzeColumns(Ramp(100.0, 60));
  }
}
