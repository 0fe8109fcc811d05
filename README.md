# Market Checklist: indicator and scoring engine

This project models the computational core of the "Market Checklist" Streamlit
dashboard (`Liquidity_app.py`). The dashboard downloads price series for a few
exchange-traded funds and indices, turns each into a 0/1 (or 0/0.5/1) signal,
and adds the signals up into two category scores:

- **Liquidity** (out of 3):
  - BND blended 3/5/11-month return against the 3-month T-bill rate;
  - TIP 5-day vs 20-day moving-average cross;
  - IBIT 3-day vs 8-day cross.
- **Sentiment** (out of 4):
  - Citi Economic Surprise Index, entered by hand (half a point for a value
    above 0, half a point for a positive month-over-month change);
  - share of Russell 3000 stocks above their 50-day average (R3FI), fetched or
    entered by hand;
  - XLY/XLP ratio 3/8 cross;
  - FFTY 3/8 cross.

Each total is turned into a percentage and a label band.

Price series are `seq<real>`, oldest observation first. A series that could not
be fetched is `None`. The two helpers `calc_ma` and `calc_return` return
`Option<real>`.

No indicator evaluator fails on inputs that meet its precondition. Where the
dashboard's `try` block would raise, the evaluator gives the 0 that the
`except` branch stores.
This covers too little history for a return, an empty T-bill series, and a
series that is `None`.

The two tabs fill their score dictionaries one key at a time, so they are
modelled as methods. Each method builds a `map` and then sums it with a loop in
insertion order.

Files:

- `wrappers.dfy`: `Option` and the zero fallback for a missing average.
- `series.dfy` (module `TimeSeries`): moving average, percentage return, and
  lemmas about sums and means.
- `indicators.dfy` (module `Indicators`): one evaluator per indicator, with its
  properties.
- `scoring.dfy` (module `Scoring`): the two dictionary-filling methods, the
  summation, the percentages and the label bands.

Behaviour worth knowing, kept exactly as `Liquidity_app.py` has it:

- The BND horizons are 3, 5 and 11 months of 21 trading days each.
- The hurdle for the blended BND return is `rate / 100 * 0.25`, a simple
  quarter of the annual rate, not a compounded T-bill return. The blend is a
  percentage while the hurdle is a fraction, and the model compares them
  exactly as the code does. `Indicators.BondBeatsAnyTBillRate` states the
  consequence: any rate from 0 to 100 gives a hurdle of at most 0.25.
- A moving average that cannot be computed becomes 0 before the cross
  comparison. `Indicators.MaCrossFallback` states the consequence.
- Trend-stage classification, a position-percentage table and month-end
  date alignment are not in `Liquidity_app.py`, so this model does not
  include them.

## Model

| member | source | states |
|---|---|---|
| `TimeSeries.MovingAverage` | Liquidity_app.py:26-30 | `None` exactly when the series has fewer than `period` observations. Otherwise the mean times `period` equals the sum of the last `period` observations. |
| `TimeSeries.AnchorIndex` | Liquidity_app.py:21-23 | When the length guard passes, the anchor position `len - 21*months` is always a valid index. |
| `TimeSeries.PercentReturn` | Liquidity_app.py:19-23 | `None` exactly when the series is shorter than `21*months`. Otherwise the return grows the anchor price into the last price. It is positive exactly when the last price is above the anchor, zero exactly when they are equal, and always above -100 for positive prices. |
| `TimeSeries.MovingAverageBounds` | Liquidity_app.py:26-30 | A defined moving average lies between any lower and upper bound of the prices in its window. |
| `TimeSeries.MovingAveragePositive` | Liquidity_app.py:26-30 | The moving average of positive prices is positive. |
| `TimeSeries.MovingAverageConstant` | Liquidity_app.py:26-30 | A flat series averages to its price, whatever the period. |
| `TimeSeries.MovingAverageSplit` | Liquidity_app.py:26-30 | Suppose some price separates the older part of the long window (all below it) from the short window (all at or above it). Then the short mean is strictly above the long mean. |
| `TimeSeries.MovingAverageRising` | Liquidity_app.py:26-30 | On a strictly rising series, with short < long <= length, the short mean is strictly above the long mean. |
| `TimeSeries.MovingAverageExample` | Liquidity_app.py:26-30 | The 5-observation mean of 10, 11, 12, 13, 14 is 12. |
| `Wrappers.OrZero` | Liquidity_app.py:153-154 | A missing average becomes 0 and a defined one is kept. The result is 0 exactly when the average is missing or is itself 0. |
| `Indicators.MaCrossScore` | Liquidity_app.py:149-157 | The score is 0 or 1. With history for both means, it is 1 exactly when the short mean is strictly above the long one. With too little history for either mean, it is 0. With history for the short mean only, it is 1 exactly when that mean is positive, because the missing long mean counts as 0. With history for the long mean only, it is 1 exactly when that mean is negative. |
| `Indicators.MaCrossFallback` | Liquidity_app.py:153-156 | A positive series with at least `short` but fewer than `long` observations scores 1. |
| `Indicators.MaCrossFlat` | Liquidity_app.py:156 | Equal means do not cross: a flat series with enough history scores 0. |
| `Indicators.MaCrossRising` | Liquidity_app.py:176-183 | A strictly rising series with enough history for both means scores 1. |
| `Indicators.FftyScore` | Liquidity_app.py:363-383 | The score is 0 or 1. It is 0 when FFTY could not be fetched. Otherwise it is the 3/8 cross of the FFTY series. |
| `Indicators.Ratio` | Liquidity_app.py:335 | The ratio series has the same length as its inputs. Each entry times its XLP price gives back the XLY price. |
| `Indicators.RatioPositive` | Liquidity_app.py:335 | The ratio of two positive price series is positive, so the zero fallback applies to it as to a price series. |
| `Indicators.CyclicalDefensiveScore` | Liquidity_app.py:333-356 | The score is 0 or 1. It is 0 when XLY or XLP is missing. Otherwise it is the 3/8 cross of the XLY/XLP ratio. |
| `Indicators.BlendedReturn` | Liquidity_app.py:124 | The weighted blend of the 3-, 5- and 11-month returns is at most the largest and at least the smallest of the three. |
| `Indicators.TBillHurdle` | Liquidity_app.py:125 | The hurdle is a quarter of the annual rate read as a fraction: 400 times the hurdle gives back the rate in percent. A rate from 0 to 100 gives a hurdle from 0 to 0.25. |
| `Indicators.BlendOfEqualReturns` | Liquidity_app.py:124 | The weights 0.33, 0.33 and 0.34 sum to 1, so three equal returns blend to that return. |
| `Indicators.BlendBetween` | Liquidity_app.py:124 | The blend lies between any common lower and upper bound of the three horizon returns. |
| `Indicators.BondBlend` | Liquidity_app.py:114-124 | The blend is undefined exactly when the BND series is shorter than 11 months (231 trading days). When defined, it blends the 3-, 5- and 11-month returns. |
| `Indicators.BondVsTBillScore` | Liquidity_app.py:114-142 | The score is 0 or 1. It is 1 exactly when BND has 231 observations, the T-bill series is non-empty, and the blend is above `rate/100*0.25` for the latest rate. Every failure path scores 0. |
| `Indicators.BondVsTBillAllHorizons` | Liquidity_app.py:124-127 | If all three horizon returns beat the hurdle, the score is 1. If none beats it, the score is 0. |
| `Indicators.BondBeatsAnyTBillRate` | Liquidity_app.py:124-127 | With a T-bill rate between 0 and 100, three horizon returns above 0.25 percent always score 1. This is because the hurdle is a fraction while the returns are percentages. |
| `Indicators.MonthOverMonth` | Liquidity_app.py:282 | The change is 0 when the prior value is 0. Otherwise, multiplied by the prior value's magnitude, it gives 100 times the difference. It is positive exactly when the prior value is nonzero and the current value exceeds it. |
| `Indicators.CitiScore` | Liquidity_app.py:281-285 | The score is 0, 0.5 or 1. It is at least 0.5 exactly when the value is above 0 or rose from a nonzero prior. It is 1 exactly when both hold. With a prior of 0, only the above-zero half can be earned. |
| `Indicators.BreadthScore` | Liquidity_app.py:303-326 | The score is 0 or 1. With a non-empty fetched series, it is 1 exactly when the latest reading is strictly above 50. Otherwise it is 1 exactly when the manual reading is strictly above 50. |
| `Indicators.BreadthManualDefaultScoresZero` | Liquidity_app.py:315-323 | Without fetched data, the manual field's default of 50.0 scores 0. |
| `Indicators.BreadthPathsAgree` | Liquidity_app.py:303-326 | The fetched path and the manual path give the same score for the same reading. |
| `Scoring.SumScores` | Liquidity_app.py:201 | Given the dictionary's keys in insertion order, each once, the loop that adds the values one by one returns the sum of the scores under those keys. |
| `Scoring.SumOverBounds` | Liquidity_app.py:201 | Scores that each lie in [0, 1] sum to between 0 and the number of keys. |
| `Scoring.EvaluateLiquidity` | Liquidity_app.py:109-201 | The dictionary has exactly the three liquidity keys. Each entry is the evaluator of that indicator's own inputs, so a failing indicator zeroes only its own entry. The total is the sum of the three entries and is 0, 1, 2 or 3. |
| `Scoring.LiquidityPercentage` | Liquidity_app.py:208 | The percentage times 3 equals the total times 100. A total in [0, 3] gives a percentage in [0, 100]. The percentage is 100 exactly when the total is 3. |
| `Scoring.LiquidityLevelOf` | Liquidity_app.py:211-218 | The band is "Strong" exactly for a total of 3, "Moderate" exactly for 2, "Weak" exactly for 1, and "Poor" for every other total. |
| `Scoring.LiquidityLevelMeaning` | Liquidity_app.py:211-218 | On three 0/1 scores the band is "Strong" exactly when all three are 1 and "Poor" exactly when all are 0. It is "Moderate" for a total of 2 and "Weak" for a total of 1. |
| `Scoring.EvaluateSentiment` | Liquidity_app.py:255-388 | The dictionary has exactly the four sentiment keys. Each entry is the evaluator of that indicator's own inputs, and missing series score 0. The total is the sum of the four entries and is one of 0, 0.5, ..., 4. |
| `Scoring.SentimentPercentage` | Liquidity_app.py:395 | The percentage times 4 equals the total times 100. A total in [0, 4] gives a percentage in [0, 100]. The percentage is 100 exactly when the total is 4. |
| `Scoring.SentimentLevelOf` | Liquidity_app.py:398-405 | Because the thresholds are tried from the top, the bands are: "Very Positive" for totals of at least 3.5; "Positive" for [2.5, 3.5); "Neutral" for [1.5, 2.5); "Negative" below 1.5. |
| `Scoring.SentimentLevelMonotone` | Liquidity_app.py:398-405 | A higher sentiment total never falls in a lower band. |

## Left out

- Streamlit rendering is not modelled: tabs, metrics, columns, captions, banners, the summary tables, the refresh button, `st.cache_data` and `st.session_state`. It computes nothing that the scores depend on.
- Market-data retrieval through yfinance is not modelled. That covers the date range taken from the current time, the ticker fallback loop for R3FI, and the `squeeze`/`dropna` coercion. It is network I/O in a foreign library. Its result enters the model as the series parameters: a plain `seq<real>` per liquidity series and `Option<seq<real>>` per sentiment series, where `None` means the fetch failed.
- When the liquidity fetch fails, the liquidity tab shows an error and computes no score. `Scoring.EvaluateLiquidity` models only the branch where the data arrived.
- `Indicators.Ratio`: pandas index alignment in `xly_data / xlp_data` is not modelled. The division is element-wise, with equal lengths and positive XLP prices as a precondition.
- Floating point is not modelled: values are exact reals, so NaN, infinities and rounding do not arise. For the same reason, string formatting such as `:.2f` is left out.
- `TimeSeries.PercentReturn` requires positive prices. A zero anchor price would give an infinite return in floating point, which reals cannot express.
- `TimeSeries.MovingAverage` and `TimeSeries.PercentReturn` require a period or month count of at least 1. The dashboard only uses 3, 5, 8, 11 and 20. With 0, pandas would take the mean of an empty window or index position 0.
- `Indicators.BondVsTBillScore` treats the T-bill data as a series only. The code's `float(tbill_data)` branch for a non-series value is not modelled.
- `Indicators.BreadthScore` does not model the `except` branch of the automatic R3FI path, which cannot be reached with a non-empty numeric series. That branch asks for a manual reading and applies the same rule as the other manual path (see `Indicators.BreadthPathsAgree`).
- Scores are modelled as reals throughout. The liquidity scores are Python integers 0 and 1, and their sum is an integer, so the values are the same.
