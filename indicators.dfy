/** The technical indicators `analyze_stock` adds to the price frame:
    the 20- and 50-session simple moving averages of the closing price and
    the 14-session relative strength index built from the first difference,
    its positive and negative parts, their rolling means, their ratio and
    the 0..100 scaling. Every column is as long as the price series. */
module Indicators {
  import opened Series

  const ShortWindow: nat := 20
  const LongWindow: nat := 50
  const RsiWindow: nat := 14

  // ---------------------------------------------------------------------
  // Moving averages
  // ---------------------------------------------------------------------

  /** `Close.rolling(n).mean()`. */
  function MovingAverage(close: seq<real>, n: nat): (r: seq<Option<real>>)
    requires 0 < n
    ensures |r| == |close|
  {
    RollingMean(Lift(close), n)
  }

  /** MA_n at index i is the arithmetic mean of the n closes ending at i,
      and is missing while fewer than n closes exist. */
  lemma MovingAverageAt(close: seq<real>, n: nat, i: nat)
    requires 0 < n && i < |close|
    ensures MovingAverage(close, n)[i].Some? <==> n <= i + 1
    ensures n <= i + 1 ==> MovingAverage(close, n)[i].value == Mean(close[i + 1 - n .. i + 1])
  {
    if n <= i + 1 {
      var w := Lift(close)[i + 1 - n .. i + 1];
      assert AllDefined(w);
      assert Values(w) == close[i + 1 - n .. i + 1];
    }
  }

  /** A defined moving average lies between the lowest and the highest close of its window. */
  lemma MovingAverageBounds(close: seq<real>, n: nat, i: nat)
    requires 0 < n && n <= i + 1 && i < |close|
    ensures MovingAverage(close, n)[i].Some?
    ensures Min(close[i + 1 - n .. i + 1]) <= MovingAverage(close, n)[i].value
    ensures MovingAverage(close, n)[i].value <= Max(close[i + 1 - n .. i + 1])
  {
    MovingAverageAt(close, n, i);
    MeanBetweenExtremes(close[i + 1 - n .. i + 1]);
  }

  /** A window of equal closes averages to exactly that close. */
  lemma MovingAverageConstant(close: seq<real>, n: nat, i: nat, p: real)
    requires 0 < n && n <= i + 1 && i < |close|
    requires forall k :: i + 1 - n <= k <= i ==> close[k] == p
    ensures MovingAverage(close, n)[i] == Some(p)
  {
    MovingAverageAt(close, n, i);
    var w := close[i + 1 - n .. i + 1];
    forall k | 0 <= k < |w| ensures w[k] == p {
      assert w[k] == close[i + 1 - n + k];
    }
    MeanConstant(w, p);
  }

  /** Over 50 strictly rising closes the 20-session average is above the
      50-session one: the 30 older closes are all below the 20 newer ones. */
  lemma MovingAverageTrendUp(close: seq<real>, i: nat)
    requires LongWindow <= i + 1 && i < |close|
    requires forall j, k :: i + 1 - LongWindow <= j < k <= i ==> close[j] < close[k]
    ensures MovingAverage(close, ShortWindow)[i].Some? && MovingAverage(close, LongWindow)[i].Some?
    ensures MovingAverage(close, ShortWindow)[i].value > MovingAverage(close, LongWindow)[i].value
  {
    MovingAverageAt(close, ShortWindow, i);
    MovingAverageAt(close, LongWindow, i);
    var older, newer := close[i - 49 .. i - 19], close[i - 19 .. i + 1];
    assert close[i - 49 .. i + 1] == older + newer;
    SumAppend(older, newer);
    var p := close[i - 19];
    forall k | 0 <= k < |older| ensures older[k] < p {
      assert older[k] == close[i - 49 + k];
    }
    forall k | 0 <= k < |newer| ensures p <= newer[k] {
      assert newer[k] == close[i - 19 + k];
    }
    SumBelow(older, p);
    SumBounds(newer, p, Max(newer));
  }

  /** Over 50 strictly falling closes the 20-session average is below the
      50-session one. */
  lemma MovingAverageTrendDown(close: seq<real>, i: nat)
    requires LongWindow <= i + 1 && i < |close|
    requires forall j, k :: i + 1 - LongWindow <= j < k <= i ==> close[j] > close[k]
    ensures MovingAverage(close, ShortWindow)[i].Some? && MovingAverage(close, LongWindow)[i].Some?
    ensures MovingAverage(close, ShortWindow)[i].value < MovingAverage(close, LongWindow)[i].value
  {
    MovingAverageAt(close, ShortWindow, i);
    MovingAverageAt(close, LongWindow, i);
    var older, newer := close[i - 49 .. i - 19], close[i - 19 .. i + 1];
    assert close[i - 49 .. i + 1] == older + newer;
    SumAppend(older, newer);
    var p := close[i - 19];
    forall k | 0 <= k < |older| ensures p < older[k] {
      assert older[k] == close[i - 49 + k];
    }
    forall k | 0 <= k < |newer| ensures newer[k] <= p {
      assert newer[k] == close[i - 19 + k];
    }
    SumAbove(older, p);
    SumBounds(newer, Min(newer), p);
  }

  // ---------------------------------------------------------------------
  // Price changes and their two parts
  // ---------------------------------------------------------------------

  /** `delta = Close.diff()`. */
  function Delta(close: seq<real>): (r: seq<Option<real>>)
    ensures |r| == |close|
  {
    Diff(Lift(close))
  }

  /** `gain = delta.clip(lower=0)`. */
  function Gain(close: seq<real>): (r: seq<Option<real>>)
    ensures |r| == |close|
  {
    ClipLower(Delta(close), 0.0)
  }

  /** `loss = -delta.clip(upper=0)`. */
  function Loss(close: seq<real>): (r: seq<Option<real>>)
    ensures |r| == |close|
  {
    Negate(ClipUpper(Delta(close), 0.0))
  }

  /** The change is missing at the first index and is the step from the
      previous close everywhere else. */
  lemma DeltaAt(close: seq<real>, i: nat)
    requires i < |close|
    ensures i == 0 ==> Delta(close)[i].None?
    ensures 0 < i ==> Delta(close)[i] == Some(close[i] - close[i - 1])
  {
  }

  /** At every defined index the gain is max(delta, 0) and the loss is
      max(-delta, 0): both non-negative, at least one of them zero, and
      their difference gives back delta. */
  lemma GainLossAt(close: seq<real>, i: nat)
    requires i < |close|
    ensures i == 0 ==> Gain(close)[i].None? && Loss(close)[i].None?
    ensures 0 < i ==> Gain(close)[i].Some? && Loss(close)[i].Some?
    ensures 0 < i ==>
      var d := close[i] - close[i - 1];
      var g := Gain(close)[i].value;
      var l := Loss(close)[i].value;
      && g == (if d > 0.0 then d else 0.0)
      && l == (if d < 0.0 then -d else 0.0)
      && g >= 0.0 && l >= 0.0
      && g - l == d
      && (g == 0.0 || l == 0.0)
  {
    DeltaAt(close, i);
  }

  lemma GainLossNonNegative(close: seq<real>)
    ensures NonNegative(Gain(close)) && NonNegative(Loss(close))
  {
    forall i | 0 <= i < |close|
      ensures Gain(close)[i].Some? ==> Gain(close)[i].value >= 0.0
      ensures Loss(close)[i].Some? ==> Loss(close)[i].value >= 0.0
    {
      GainLossAt(close, i);
    }
  }

  /** Reference definition of the upward moves between neighbouring closes. */
  function Rises(s: seq<real>): seq<real>
    requires |s| > 0
  {
    seq(|s| - 1, k requires 0 <= k < |s| - 1 => if s[k + 1] > s[k] then s[k + 1] - s[k] else 0.0)
  }

  /** Reference definition of the downward moves between neighbouring closes, as positive amounts. */
  function Falls(s: seq<real>): seq<real>
    requires |s| > 0
  {
    seq(|s| - 1, k requires 0 <= k < |s| - 1 => if s[k + 1] < s[k] then s[k] - s[k + 1] else 0.0)
  }

  // ---------------------------------------------------------------------
  // 14-session averages of gains and losses
  // ---------------------------------------------------------------------

  /** `avg_gain = gain.rolling(14).mean()`. */
  function AvgGain(close: seq<real>): (r: seq<Option<real>>)
    ensures |r| == |close|
  {
    RollingMean(Gain(close), RsiWindow)
  }

  /** `avg_loss = loss.rolling(14).mean()`. */
  function AvgLoss(close: seq<real>): (r: seq<Option<real>>)
    ensures |r| == |close|
  {
    RollingMean(Loss(close), RsiWindow)
  }

  /** The averages are missing up to index 13 (the gain and loss at index 0
      are missing, so a full window first exists at index 14) and from index
      14 on are the mean rise and the mean fall over the last 14 steps,
      that is, over the last 15 closes. */
  lemma AveragesAt(close: seq<real>, i: nat)
    requires i < |close|
    ensures AvgGain(close)[i].Some? <==> RsiWindow <= i
    ensures AvgLoss(close)[i].Some? <==> RsiWindow <= i
    ensures RsiWindow <= i ==>
      && AvgGain(close)[i].value == Mean(Rises(close[i - RsiWindow .. i + 1]))
      && AvgLoss(close)[i].value == Mean(Falls(close[i - RsiWindow .. i + 1]))
  {
    if i + 1 == RsiWindow {
      GainLossAt(close, 0);
      assert Gain(close)[0 .. i + 1][0].None?;
      assert Loss(close)[0 .. i + 1][0].None?;
    } else if RsiWindow <= i {
      GainWindow(close, i);
      LossWindow(close, i);
    }
  }

  /** From index 14 on, the 14 gains ending at i are the rises of the last 15 closes. */
  lemma GainWindow(close: seq<real>, i: nat)
    requires RsiWindow <= i < |close|
    ensures AllDefined(Gain(close)[i + 1 - RsiWindow .. i + 1])
    ensures Values(Gain(close)[i + 1 - RsiWindow .. i + 1]) == Rises(close[i - RsiWindow .. i + 1])
  {
    var s := close[i - RsiWindow .. i + 1];
    var w := Gain(close)[i + 1 - RsiWindow .. i + 1];
    forall k | 0 <= k < RsiWindow ensures w[k].Some? && w[k].value == Rises(s)[k] {
      GainLossAt(close, i + 1 - RsiWindow + k);
      assert s[k + 1] == close[i + 1 - RsiWindow + k];
      assert s[k] == close[i - RsiWindow + k];
    }
    assert Values(w) == Rises(s);
  }

  /** From index 14 on, the 14 losses ending at i are the falls of the last 15 closes. */
  lemma LossWindow(close: seq<real>, i: nat)
    requires RsiWindow <= i < |close|
    ensures AllDefined(Loss(close)[i + 1 - RsiWindow .. i + 1])
    ensures Values(Loss(close)[i + 1 - RsiWindow .. i + 1]) == Falls(close[i - RsiWindow .. i + 1])
  {
    var s := close[i - RsiWindow .. i + 1];
    var w := Loss(close)[i + 1 - RsiWindow .. i + 1];
    forall k | 0 <= k < RsiWindow ensures w[k].Some? && w[k].value == Falls(s)[k] {
      GainLossAt(close, i + 1 - RsiWindow + k);
      assert s[k + 1] == close[i + 1 - RsiWindow + k];
      assert s[k] == close[i - RsiWindow + k];
    }
    assert Values(w) == Falls(s);
  }

  /** The averages are never negative. */
  lemma AveragesNonNegative(close: seq<real>)
    ensures NonNegative(AvgGain(close)) && NonNegative(AvgLoss(close))
  {
    GainLossNonNegative(close);
    RollingMeanNonNegative(Gain(close), RsiWindow);
    RollingMeanNonNegative(Loss(close), RsiWindow);
  }

  /** From index 14 on, the average gain minus the average loss is the net
      price change over the last 14 steps divided by 14. */
  lemma AverageSpread(close: seq<real>, i: nat)
    requires RsiWindow <= i < |close|
    ensures AvgGain(close)[i].Some? && AvgLoss(close)[i].Some?
    ensures AvgGain(close)[i].value - AvgLoss(close)[i].value
         == (close[i] - close[i - RsiWindow]) / (RsiWindow as real)
  {
    AveragesAt(close, i);
    var s := close[i - RsiWindow .. i + 1];
    SumDifference(Rises(s), Falls(s), Steps(s));
    SumSteps(s);
  }

  // ---------------------------------------------------------------------
  // Relative strength and its index
  // ---------------------------------------------------------------------

  /** A quotient of two non-negative floats: a finite value, or +∞ when a
      positive number is divided by zero. 0/0 (NaN) is `None` one level up. */
  datatype Ratio = Finite(q: real) | PosInf

  /** Floating-point division of two entries that are never negative:
      missing (NaN) when either is missing or both are zero. */
  function Divide(a: Option<real>, b: Option<real>): (r: Option<Ratio>)
    requires a.Some? ==> a.value >= 0.0
    requires b.Some? ==> b.value >= 0.0
    ensures r.Some? && r.value.Finite? ==> r.value.q >= 0.0
    ensures r.None? <==> a.None? || b.None? || (a.value == 0.0 && b.value == 0.0)
    ensures r == Some(PosInf) <==> a.Some? && b.Some? && a.value > 0.0 && b.value == 0.0
  {
    if a.None? || b.None? then None
    else if b.value > 0.0 then Some(Finite(a.value / b.value))
    else if a.value > 0.0 then Some(PosInf)
    else None
  }

  /** `rs = avg_gain / avg_loss`. */
  function Rs(close: seq<real>): (r: seq<Option<Ratio>>)
    ensures |r| == |close|
    ensures forall k :: 0 <= k < |r| && r[k].Some? && r[k].value.Finite? ==> r[k].value.q >= 0.0
  {
    AveragesNonNegative(close);
    var g, l := AvgGain(close), AvgLoss(close);
    seq(|close|, k requires 0 <= k < |close| => Divide(g[k], l[k]))
  }

  /** `100 - 100 / (1 + rs)` for one entry; 100/(1 + ∞) is 0, so +∞ gives 100. */
  function Scale(rs: Option<Ratio>): (r: Option<real>)
    requires rs.Some? && rs.value.Finite? ==> rs.value.q >= 0.0
    ensures r.Some? <==> rs.Some?
    ensures r.Some? ==> 0.0 <= r.value <= 100.0
    ensures r.Some? ==> (r.value == 100.0 <==> rs.value.PosInf?)
  {
    match rs
    case None => None
    case Some(PosInf) => Some(100.0)
    case Some(Finite(q)) =>
      ScaleBounds(q);
      Some(100.0 - 100.0 / (1.0 + q))
  }

  lemma ScaleBounds(q: real)
    requires q >= 0.0
    ensures 0.0 <= 100.0 - 100.0 / (1.0 + q) < 100.0
  {
    assert 100.0 / (1.0 + q) * (1.0 + q) == 100.0;
  }

  /** `data["RSI"] = 100 - (100 / (1 + rs))`. */
  function Rsi(close: seq<real>): (r: seq<Option<real>>)
    ensures |r| == |close|
  {
    var rs := Rs(close);
    seq(|close|, k requires 0 <= k < |close| => Scale(rs[k]))
  }

  /** The three cases of the RSI at an index where the averages exist:
      with a positive average loss it is 100 - 100/(1 + gain/loss) and
      lies in [0, 100); with no loss and some gain it is 100; with neither
      it is missing. Before index 14 it is missing. */
  lemma RsiAt(close: seq<real>, i: nat)
    requires i < |close|
    ensures i < RsiWindow ==> Rsi(close)[i].None?
    ensures RsiWindow <= i ==> AvgGain(close)[i].Some? && AvgLoss(close)[i].Some?
    ensures RsiWindow <= i ==> AvgGain(close)[i].value >= 0.0 && AvgLoss(close)[i].value >= 0.0
    ensures RsiWindow <= i && AvgLoss(close)[i].value > 0.0 ==>
      var g, l := AvgGain(close)[i].value, AvgLoss(close)[i].value;
      && Rsi(close)[i] == Some(100.0 - 100.0 / (1.0 + g / l))
      && 0.0 <= Rsi(close)[i].value < 100.0
    ensures RsiWindow <= i && AvgLoss(close)[i].value == 0.0 && AvgGain(close)[i].value > 0.0 ==>
      Rsi(close)[i] == Some(100.0)
    ensures RsiWindow <= i && AvgLoss(close)[i].value == 0.0 && AvgGain(close)[i].value == 0.0 ==>
      Rsi(close)[i].None?
  {
    AveragesAt(close, i);
    AveragesNonNegative(close);
    if RsiWindow <= i && AvgLoss(close)[i].value > 0.0 {
      ScaleBounds(AvgGain(close)[i].value / AvgLoss(close)[i].value);
    }
  }

  /** An independent formula: the RSI is defined exactly when the averages
      exist and are not both zero, and is then 100·g/(g + l), the share of
      the gains in the total movement. */
  lemma RsiShare(close: seq<real>, i: nat)
    requires i < |close|
    ensures RsiWindow <= i ==> AvgGain(close)[i].Some? && AvgLoss(close)[i].Some?
    ensures Rsi(close)[i].Some? <==>
      RsiWindow <= i && AvgGain(close)[i].value + AvgLoss(close)[i].value > 0.0
    ensures Rsi(close)[i].Some? ==>
      var g, l := AvgGain(close)[i].value, AvgLoss(close)[i].value;
      Rsi(close)[i].value == 100.0 * g / (g + l)
  {
    RsiAt(close, i);
    AveragesNonNegative(close);
    if RsiWindow <= i {
      var g, l := AvgGain(close)[i].value, AvgLoss(close)[i].value;
      assert g >= 0.0 && l >= 0.0;
      if l > 0.0 {
        ShareIdentity(g, l);
      } else if g > 0.0 {
        assert 100.0 * g / (g + l) == 100.0;
      }
    }
  }

  lemma ShareIdentity(g: real, l: real)
    requires g >= 0.0 && l > 0.0
    ensures 100.0 - 100.0 / (1.0 + g / l) == 100.0 * g / (g + l)
  {
    var t := 1.0 + g / l;
    assert g / l * l == g;
    assert t * l == g + l;
    var u := 100.0 / t;
    assert u * t == 100.0;
    assert u * (g + l) == 100.0 * l by {
      calc {
        u * (g + l);
        u * (t * l);
        (u * t) * l;
        100.0 * l;
      }
    }
    var v := 100.0 * g / (g + l);
    assert v * (g + l) == 100.0 * g;
    assert (100.0 - u) * (g + l) == v * (g + l);
    Cancel(100.0 - u, v, g + l);
  }

  lemma Cancel(x: real, y: real, c: real)
    requires c > 0.0 && x * c == y * c
    ensures x == y
  {
  }

  /** Every defined RSI value lies in [0, 100]. */
  lemma RsiRange(close: seq<real>, i: nat)
    requires i < |close|
    ensures Rsi(close)[i].Some? ==> 0.0 <= Rsi(close)[i].value <= 100.0
  {
  }

  /** The RSI is missing exactly when fewer than 15 closes lead up to index i
      or the last 15 closes up to i are all equal (0/0). */
  lemma RsiUndefinedIff(close: seq<real>, i: nat)
    requires i < |close|
    ensures Rsi(close)[i].None? <==>
      i < RsiWindow || forall k :: i - RsiWindow <= k <= i ==> close[k] == close[i]
  {
    RsiShare(close, i);
    if RsiWindow <= i {
      AveragesAt(close, i);
      var s := close[i - RsiWindow .. i + 1];
      var up, down := Rises(s), Falls(s);
      SumZeroIff(up);
      SumZeroIff(down);
      var g, l := AvgGain(close)[i].value, AvgLoss(close)[i].value;
      assert g == Sum(up) / 14.0 && l == Sum(down) / 14.0;
      // g + l == 0 exactly when no step of s rises or falls
      assert g + l == 0.0 <==> Sum(up) == 0.0 && Sum(down) == 0.0;
      forall k | 0 <= k < |s| - 1
        ensures (up[k] == 0.0 && down[k] == 0.0) <==> s[k + 1] == s[k]
      {
      }
      FlatIff(s);
      assert (forall k :: 0 <= k < |s| ==> s[k] == s[|s| - 1])
         <==> (forall k :: i - RsiWindow <= k <= i ==> close[k] == close[i]);
    }
  }

  /** No element is above a later one. */
  predicate NonDecreasing(s: seq<real>)
  {
    forall j, k :: 0 <= j <= k < |s| ==> s[j] <= s[k]
  }

  /** No element is below a later one. */
  predicate NonIncreasing(s: seq<real>)
  {
    forall j, k :: 0 <= j <= k < |s| ==> s[j] >= s[k]
  }

  /** If the last 15 closes never fall and end above where they began, the RSI is 100. */
  lemma RsiAllRises(close: seq<real>, i: nat)
    requires RsiWindow <= i < |close|
    requires NonDecreasing(close[i - RsiWindow .. i + 1])
    requires close[i - RsiWindow] < close[i]
    ensures Rsi(close)[i] == Some(100.0)
  {
    AveragesAt(close, i);
    var s := close[i - RsiWindow .. i + 1];
    var down := Falls(s);
    forall k | 0 <= k < |down| ensures down[k] == 0.0 {
      assert s[k] <= s[k + 1];
    }
    SumZeroIff(down);
    AverageSpread(close, i);
    RsiAt(close, i);
  }

  /** If the last 15 closes never rise and end below where they began, the RSI is 0. */
  lemma RsiAllFalls(close: seq<real>, i: nat)
    requires RsiWindow <= i < |close|
    requires NonIncreasing(close[i - RsiWindow .. i + 1])
    requires close[i] < close[i - RsiWindow]
    ensures Rsi(close)[i] == Some(0.0)
  {
    AveragesAt(close, i);
    var s := close[i - RsiWindow .. i + 1];
    var up := Rises(s);
    forall k | 0 <= k < |up| ensures up[k] == 0.0 {
      assert s[k] >= s[k + 1];
    }
    SumZeroIff(up);
    AverageSpread(close, i);
    RsiAt(close, i);
    assert AvgGain(close)[i].value == 0.0;
  }
}
