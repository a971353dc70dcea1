# Stock indicator analysis — a verified model

This project models the computational core of `analyze_stock` in
`IA_ANALISIS_BOLSA_EMAIL/analysis/model.py`. Given a series of daily closing
prices, it covers:

- the early `(None, None)` return on an empty frame;
- the 20- and 50-session moving averages (`rolling(n).mean()`);
- the 14-session RSI: `diff`, the `clip` split into gains and losses, their
  14-session rolling means, `rs = avg_gain / avg_loss` and
  `100 - 100 / (1 + rs)`;
- reading the last value of each column (`iloc[-1]`);
- the first-match-wins `if/elif` chain that picks one of four scenarios and
  its fixed decision text.

Modelling conventions:

- Prices are `real`s.
- A pandas column is a `seq<Option<real>>` aligned with the prices, where
  `None` stands for NaN.
- `rolling(n).mean()` keeps pandas' default `min_periods = n`. An entry is
  defined only when the whole window lies inside the series and holds no
  missing value.
- The quotient `rs` is a `Ratio` (`Finite(q)` or `PosInf`) inside an
  `Option`:
  - a positive average gain over a zero average loss gives `+inf`, so the
    RSI is 100;
  - 0/0 gives NaN, so the RSI is missing.
- Every comparison with a missing value is false, as Python's comparisons
  with NaN are.

Modules:

- `Series`: generic column operations and facts about sums and means.
- `Indicators`: MA20, MA50 and RSI.
- `Decision`: the classification and the decision texts.
- `Analysis`: the latest snapshot, the whole computation as a function
  (`Analyze`), and the class `PriceFrame`. Its method `AnalyzeStock` writes
  the `MA20`, `MA50` and `RSI` columns into the frame in place, as the
  source does, and returns the outcome.

Where a natural reading of the behaviour differs from the code, the model
follows the code:

- No Bollinger bands are computed.
- No "insufficient data" error exists. A short series just yields missing
  latest values, which fall through the comparisons (`ShortSeries`).
- A constant series has 0/0 in its RSI, so the RSI is NaN and the result is
  Neutral, not Risk (`ConstantSeries`).
- A series rising linearly from 100 to 159 does give MA20 = 149.5,
  MA50 = 134.5, RSI = 100 and Risk (`LinearRiseExample`).

## Model

| member | source | states |
|---|---|---|
| Indicators.MovingAverage | IA_ANALISIS_BOLSA_EMAIL/analysis/model.py:26-27 | `Close.rolling(n).mean()`: one entry per close; its entries are described by `MovingAverageAt` |
| Indicators.MovingAverageAt | IA_ANALISIS_BOLSA_EMAIL/analysis/model.py:26-27 | MA_n at index i is defined iff i ≥ n−1, and then it is the arithmetic mean of the n closes ending at i |
| Indicators.MovingAverageBounds | IA_ANALISIS_BOLSA_EMAIL/analysis/model.py:26-27 | a defined moving average lies between the minimum and the maximum close of its window |
| Indicators.MovingAverageConstant | IA_ANALISIS_BOLSA_EMAIL/analysis/model.py:26-27 | a window of equal closes averages to exactly that close |
| Indicators.MovingAverageTrendUp | IA_ANALISIS_BOLSA_EMAIL/analysis/model.py:26-27 | over 50 strictly rising closes, MA20 > MA50 |
| Indicators.MovingAverageTrendDown | IA_ANALISIS_BOLSA_EMAIL/analysis/model.py:26-27 | over 50 strictly falling closes, MA20 < MA50 |
| Indicators.Delta | IA_ANALISIS_BOLSA_EMAIL/analysis/model.py:30 | `Close.diff()`: one entry per close; its entries are described by `DeltaAt` |
| Indicators.Gain | IA_ANALISIS_BOLSA_EMAIL/analysis/model.py:31 | `delta.clip(lower=0)`: one entry per close; its entries are described by `GainLossAt` |
| Indicators.Loss | IA_ANALISIS_BOLSA_EMAIL/analysis/model.py:32 | `-delta.clip(upper=0)`: one entry per close; its entries are described by `GainLossAt` |
| Indicators.DeltaAt | IA_ANALISIS_BOLSA_EMAIL/analysis/model.py:30 | delta is missing at index 0 and is close[i] − close[i−1] from index 1 on |
| Indicators.GainLossAt | IA_ANALISIS_BOLSA_EMAIL/analysis/model.py:30-32 | gain = max(delta, 0) and loss = max(−delta, 0); both are ≥ 0, gain − loss = delta, one of them is 0, and both are missing where delta is |
| Indicators.GainLossNonNegative | IA_ANALISIS_BOLSA_EMAIL/analysis/model.py:31-32 | no defined gain or loss entry is negative |
| Indicators.AvgGain | IA_ANALISIS_BOLSA_EMAIL/analysis/model.py:34 | `gain.rolling(14).mean()`: one entry per close; its entries are described by `AveragesAt` |
| Indicators.AvgLoss | IA_ANALISIS_BOLSA_EMAIL/analysis/model.py:35 | `loss.rolling(14).mean()`: one entry per close; its entries are described by `AveragesAt` |
| Indicators.AveragesAt | IA_ANALISIS_BOLSA_EMAIL/analysis/model.py:30-35 | avg_gain and avg_loss are defined iff i ≥ 14, and then they are the mean rise and the mean fall over the last 15 closes (the reference functions `Rises` and `Falls`) |
| Indicators.AveragesNonNegative | IA_ANALISIS_BOLSA_EMAIL/analysis/model.py:34-35 | the averages are never negative |
| Indicators.AverageSpread | IA_ANALISIS_BOLSA_EMAIL/analysis/model.py:30-35 | avg_gain − avg_loss = (close[i] − close[i−14]) / 14 (telescoping) |
| Indicators.Divide | IA_ANALISIS_BOLSA_EMAIL/analysis/model.py:37 | the quotient of two non-negative entries is NaN iff an operand is missing or both are 0, +inf iff only the divisor is 0, and otherwise a finite value ≥ 0 |
| Indicators.Rs | IA_ANALISIS_BOLSA_EMAIL/analysis/model.py:37 | rs has one entry per close, and every finite entry is ≥ 0 |
| Indicators.Scale | IA_ANALISIS_BOLSA_EMAIL/analysis/model.py:38 | `100 − 100/(1 + rs)` is defined iff rs is, lies in [0, 100], and is 100 exactly for rs = +inf |
| Indicators.ScaleBounds | IA_ANALISIS_BOLSA_EMAIL/analysis/model.py:38 | for finite rs ≥ 0 the scaled value lies in [0, 100) |
| Indicators.Rsi | IA_ANALISIS_BOLSA_EMAIL/analysis/model.py:38 | the RSI column: one entry per close; its entries are described by `RsiAt`, `RsiShare` and `RsiUndefinedIff` |
| Indicators.RsiAt | IA_ANALISIS_BOLSA_EMAIL/analysis/model.py:37-38 | RSI is missing before index 14. If avg_loss > 0 it is 100 − 100/(1 + g/l) in [0, 100); if avg_loss = 0 < avg_gain it is 100; if both are 0 it is missing |
| Indicators.RsiShare | IA_ANALISIS_BOLSA_EMAIL/analysis/model.py:34-38 | RSI is defined iff i ≥ 14 and g + l > 0, and then equals 100·g/(g + l), an independent formula |
| Indicators.ShareIdentity | IA_ANALISIS_BOLSA_EMAIL/analysis/model.py:38 | 100 − 100/(1 + g/l) = 100·g/(g + l) for g ≥ 0 and l > 0 |
| Indicators.RsiRange | IA_ANALISIS_BOLSA_EMAIL/analysis/model.py:38 | every defined RSI value lies in [0, 100] |
| Indicators.RsiUndefinedIff | IA_ANALISIS_BOLSA_EMAIL/analysis/model.py:30-38 | RSI at i is missing iff i < 14 or the 15 closes up to i are all equal |
| Indicators.RsiAllRises | IA_ANALISIS_BOLSA_EMAIL/analysis/model.py:30-38 | closes that never fall over the last 15 and end higher give RSI = 100 |
| Indicators.RsiAllFalls | IA_ANALISIS_BOLSA_EMAIL/analysis/model.py:30-38 | closes that never rise over the last 15 and end lower give RSI = 0 |
| Series.RollingMean | IA_ANALISIS_BOLSA_EMAIL/analysis/model.py:26-27 | `rolling(n).mean()` with `min_periods = n`: one entry per input entry; an entry is defined only for a full window without missing entries (see `MovingAverageAt`, `AveragesAt`) |
| Series.RollingMeanNonNegative | IA_ANALISIS_BOLSA_EMAIL/analysis/model.py:34-35 | a rolling mean of a column with no negative entry has no negative entry |
| Series.Min | IA_ANALISIS_BOLSA_EMAIL/analysis/model.py:26-27 | the window minimum bounds every element and occurs in the window |
| Series.Max | IA_ANALISIS_BOLSA_EMAIL/analysis/model.py:26-27 | the window maximum bounds every element and occurs in the window |
| Series.MeanBetweenExtremes | IA_ANALISIS_BOLSA_EMAIL/analysis/model.py:26-27 | a mean lies between the minimum and the maximum of its terms |
| Series.SumSteps | IA_ANALISIS_BOLSA_EMAIL/analysis/model.py:30 | the first differences of a window add up to its last element minus its first |
| Series.SumZeroIff | IA_ANALISIS_BOLSA_EMAIL/analysis/model.py:34-35 | a sum of non-negative terms is ≥ 0, and it is 0 iff every term is 0 |
| Series.FlatIff | IA_ANALISIS_BOLSA_EMAIL/analysis/model.py:30-38 | a window has no step up or down iff all its elements are equal to the last |
| Decision.Classify | IA_ANALISIS_BOLSA_EMAIL/analysis/model.py:49-76 | each scenario holds iff its own condition does. Favorable iff ma20 > ma50 ∧ rsi < 70. Risk iff rsi > 70. Speculative iff rsi < 30 ∧ ¬(ma20 > ma50). Neutral iff rsi is NaN, rsi = 70, or 30 ≤ rsi < 70 without the trend. Missing values compare false |
| Decision.StrictBoundaries | IA_ANALISIS_BOLSA_EMAIL/analysis/model.py:49-76 | rsi = 70 is never Risk, rsi = 30 never Speculative, ma20 = ma50 never Favorable; a missing RSI is Neutral and a missing MA50 is never Favorable |
| Decision.DecisionText | IA_ANALISIS_BOLSA_EMAIL/analysis/model.py:50-76 | the fixed text of a scenario starts with its title line followed by a line break; distinctness by `DecisionDistinct` |
| Decision.TitleDistinct | IA_ANALISIS_BOLSA_EMAIL/analysis/model.py:50-76 | the four title lines are pairwise different, already at the first letter of the scenario's name |
| Decision.DecisionDistinct | IA_ANALISIS_BOLSA_EMAIL/analysis/model.py:49-76 | different scenarios yield different decision texts |
| Analysis.Latest | IA_ANALISIS_BOLSA_EMAIL/analysis/model.py:41-44 | `iloc[-1]` of each column: its close is the last close; its averages and RSI are described by `LatestValues` |
| Analysis.LatestValues | IA_ANALISIS_BOLSA_EMAIL/analysis/model.py:41-44 | the last MA20/MA50 entries are defined iff at least 20/50 closes exist, and are then the means of the last 20/50 closes. The last RSI entry is missing iff there are at most 14 closes or the last 15 are equal, and otherwise lies in [0, 100] |
| Analysis.Analyze | IA_ANALISIS_BOLSA_EMAIL/analysis/model.py:19-21 | no outcome iff the series is empty; otherwise the decision text is the fixed text of the chosen scenario |
| Analysis.PriceFrame.AnalyzeStock | IA_ANALISIS_BOLSA_EMAIL/analysis/model.py:19-76 | on an empty frame nothing changes and nothing is returned. Otherwise the MA20, MA50 and RSI columns are added (other columns untouched, prices unchanged), and the result is the analysis of the prices |
| Analysis.ShortSeries | IA_ANALISIS_BOLSA_EMAIL/analysis/model.py:42-76 | fewer than 50 closes still give an outcome, never Favorable; at most 14 closes give Neutral |
| Analysis.ConstantColumns | IA_ANALISIS_BOLSA_EMAIL/analysis/model.py:26-38 | for equal closes the last RSI entry is missing (0/0), and the last averages, once they exist, equal the close |
| Analysis.ConstantSeries | IA_ANALISIS_BOLSA_EMAIL/analysis/model.py:26-76 | equal closes give averages equal to the close, a missing RSI, and Neutral |
| Analysis.RisingColumns | IA_ANALISIS_BOLSA_EMAIL/analysis/model.py:26-38 | for at least 15 strictly rising closes the last RSI entry is 100, and from 50 closes on the last MA20 exceeds the last MA50 |
| Analysis.FallingColumns | IA_ANALISIS_BOLSA_EMAIL/analysis/model.py:26-38 | for at least 15 strictly falling closes the last RSI entry is 0, the last MA20 never exceeds the last MA50, and from 50 closes on it is below it |
| Analysis.RisingSeries | IA_ANALISIS_BOLSA_EMAIL/analysis/model.py:26-76 | at least 15 strictly rising closes give RSI = 100 and Risk; from 50 closes on, MA20 > MA50 too |
| Analysis.FallingSeries | IA_ANALISIS_BOLSA_EMAIL/analysis/model.py:26-76 | at least 15 strictly falling closes give RSI = 0 and Speculative; from 50 closes on, MA50 > MA20 |
| Analysis.RampMovingAverage | IA_ANALISIS_BOLSA_EMAIL/analysis/model.py:26-27 | the latest n-session average of closes rising by 1 per session lies (n − 1)/2 below the last close |
| Analysis.RampColumns | IA_ANALISIS_BOLSA_EMAIL/analysis/model.py:26-38 | at least 50 closes rising by 1 end with MA20 = last − 9.5, MA50 = last − 24.5 and RSI = 100 |
| Analysis.LinearRiseExample | IA_ANALISIS_BOLSA_EMAIL/analysis/model.py:26-76 | the closes 100, 101, …, 159 give MA20 = 149.5, MA50 = 134.5, RSI = 100 and Risk |

## Left out

- `yf.download` (model.py:17) is a network fetch through a library. Its
  result enters the model only as the input sequence of closing prices.
- The `print` calls and the report text (model.py:81-97) are left out. The
  report depends on float-to-string formatting (`:.2f`). The `report` value
  `analyze_stock` returns is therefore not modelled, only the decision text
  inside it.
- `os.makedirs`, the Matplotlib chart and the saved file (model.py:102-117)
  are left out: they are plotting and file-system I/O. The returned
  `plot_path` is not modelled either.
- `create_pdf` (model.py:125-159) is left out: it is page layout and file
  writing through reportlab.
- `IA_ANALISIS_BOLSA_EMAIL/app.py` is not part of this model: it is the
  interactive front end.
- IEEE floating point is not modelled. That covers rounding, signed zero,
  and NaN among the closing prices themselves. Reals and an explicit
  `Option` stand in for it.
- Bollinger bands and an "insufficient data" error do not exist in the code,
  so they are not modelled.
- The other columns of the downloaded frame (open, high, low, volume, the
  date index) are not modelled: the analysis reads only `Close`.
