/**
 * The scoring rule of each liquidity and sentiment indicator. No
 * evaluator fails on inputs that meet its precondition: where the
 * dashboard's `try` block would raise (too little history for a return, an
 * empty T-bill series, a series that could not be fetched at all), the
 * evaluator yields the 0 its `except` branch stores.
 */
module Indicators {
  import opened Wrappers
  import opened TimeSeries

  // ---------------------------------------------------------------------
  // Moving-average cross: TIP 5/20, IBIT 3/8, FFTY 3/8, XLY/XLP ratio 3/8.
  // ---------------------------------------------------------------------

  const TipShort: nat := 5
  const TipLong: nat := 20
  const FastShort: nat := 3
  const FastLong: nat := 8

  /**
   * 1 when the short trailing mean is strictly above the long one, else 0.
   * A mean that `calc_ma` cannot compute is replaced by 0 before the
   * comparison, so with enough history for the short mean only, the cross
   * compares that mean with 0.
   */
  function MaCrossScore(data: seq<real>, short: nat, long: nat): (score: real)
    requires 1 <= short && 1 <= long
    ensures score == 0.0 || score == 1.0
    ensures |data| >= short && |data| >= long ==>
      (score == 1.0 <==> MovingAverage(data, short).value > MovingAverage(data, long).value)
    ensures |data| < short && |data| < long ==> score == 0.0
    ensures short <= |data| < long ==>
      (score == 1.0 <==> MovingAverage(data, short).value > 0.0)
    ensures long <= |data| < short ==>
      (score == 1.0 <==> MovingAverage(data, long).value < 0.0)
  {
    if OrZero(MovingAverage(data, short)) > OrZero(MovingAverage(data, long)) then 1.0 else 0.0
  }

  /**
   * The zero fallback makes a series of positive prices that is long enough
   * for the short mean but not for the long one score as bullish.
   */
  lemma MaCrossFallback(data: seq<real>, short: nat, long: nat)
    requires 1 <= short <= |data| < long
    requires PositivePrices(data)
    ensures MaCrossScore(data, short, long) == 1.0
  {
    MovingAveragePositive(data, short);
  }

  /** Equal means do not cross: a flat series scores 0. */
  lemma MaCrossFlat(data: seq<real>, short: nat, long: nat, c: real)
    requires 1 <= short && 1 <= long && |data| >= short && |data| >= long
    requires forall i :: 0 <= i < |data| ==> data[i] == c
    ensures MaCrossScore(data, short, long) == 0.0
  {
    MovingAverageConstant(data, short, c);
    MovingAverageConstant(data, long, c);
  }

  /** A strictly rising series with enough history scores 1. */
  lemma MaCrossRising(data: seq<real>, short: nat, long: nat)
    requires 1 <= short < long <= |data|
    requires StrictlyIncreasing(data)
    ensures MaCrossScore(data, short, long) == 1.0
  {
    MovingAverageRising(data, short, long);
  }

  /** FFTY 3/8 cross; a series that could not be fetched (`None`) scores 0. */
  function FftyScore(ffty: Option<seq<real>>): (score: real)
    ensures score == 0.0 || score == 1.0
    ensures ffty.None? ==> score == 0.0
    ensures ffty.Some? ==> score == MaCrossScore(ffty.value, FastShort, FastLong)
  {
    match ffty
    case None => 0.0
    case Some(s) => MaCrossScore(s, FastShort, FastLong)
  }

  /**
   * The element-wise XLY/XLP ratio series: each entry, multiplied back by
   * its XLP price, gives the XLY price.
   */
  function Ratio(num: seq<real>, den: seq<real>): (r: seq<real>)
    requires |num| == |den|
    requires PositivePrices(den)
    ensures |r| == |num|
    ensures forall i :: 0 <= i < |r| ==> r[i] * den[i] == num[i]
  {
    seq(|num|, i requires 0 <= i < |num| => num[i] / den[i])
  }

  /** The ratio of two series of positive prices is positive. */
  lemma RatioPositive(num: seq<real>, den: seq<real>)
    requires |num| == |den|
    requires PositivePrices(num) && PositivePrices(den)
    ensures PositivePrices(Ratio(num, den))
  {
  }

  /**
   * XLY/XLP ratio 3/8 cross. When either series could not be fetched the
   * division raises and the indicator scores 0.
   */
  function CyclicalDefensiveScore(xly: Option<seq<real>>, xlp: Option<seq<real>>): (score: real)
    requires xly.Some? && xlp.Some? ==>
      |xly.value| == |xlp.value| && PositivePrices(xlp.value)
    ensures score == 0.0 || score == 1.0
    ensures xly.None? || xlp.None? ==> score == 0.0
    ensures xly.Some? && xlp.Some? ==>
      score == MaCrossScore(Ratio(xly.value, xlp.value), FastShort, FastLong)
  {
    if xly.Some? && xlp.Some? then MaCrossScore(Ratio(xly.value, xlp.value), FastShort, FastLong)
    else 0.0
  }

  // ---------------------------------------------------------------------
  // BND multi-horizon return vs the 3-month T-bill.
  // ---------------------------------------------------------------------

  const ShortHorizon: nat := 3
  const MidHorizon: nat := 5
  const LongHorizon: nat := 11

  /** The 33% / 33% / 34% blend of the three horizon returns. */
  function BlendedReturn(r3: real, r5: real, r11: real): (b: real)
    ensures b >= r3 || b >= r5 || b >= r11
    ensures b <= r3 || b <= r5 || b <= r11
  {
    0.33 * r3 + 0.33 * r5 + 0.34 * r11
  }

  /** The weights sum to 1: three equal returns blend to that return. */
  lemma BlendOfEqualReturns(r: real)
    ensures BlendedReturn(r, r, r) == r
  {
  }

  /** The blend lies between the smallest and largest horizon return. */
  lemma BlendBetween(r3: real, r5: real, r11: real, lo: real, hi: real)
    requires lo <= r3 <= hi && lo <= r5 <= hi && lo <= r11 <= hi
    ensures lo <= BlendedReturn(r3, r5, r11) <= hi
  {
  }

  /**
   * The blended BND return; `None` when any horizon return is `None`,
   * which is exactly when the series is shorter than the longest horizon.
   */
  function BondBlend(bnd: seq<real>): (b: Option<real>)
    requires PositivePrices(bnd)
    ensures b.None? <==> |bnd| < LongHorizon * TradingDaysPerMonth
    ensures b.Some? ==>
      b.value == BlendedReturn(PercentReturn(bnd, ShortHorizon).value,
                               PercentReturn(bnd, MidHorizon).value,
                               PercentReturn(bnd, LongHorizon).value)
  {
    match (PercentReturn(bnd, ShortHorizon), PercentReturn(bnd, MidHorizon), PercentReturn(bnd, LongHorizon))
    case (Some(r3), Some(r5), Some(r11)) => Some(BlendedReturn(r3, r5, r11))
    case _ => None
  }

  /**
   * The hurdle the blend must beat: the annual T-bill rate divided by 100
   * and scaled to a quarter year. The blend is a percentage while the
   * hurdle is a fraction; the comparison mixes the two units as the
   * dashboard does.
   */
  function TBillHurdle(annualRate: real): (h: real)
    ensures h * 400.0 == annualRate
    ensures 0.0 <= annualRate <= 100.0 ==> 0.0 <= h <= 0.25
  {
    annualRate / 100.0 * 0.25
  }

  /**
   * 1 when the blended BND return beats the hurdle taken from the latest
   * T-bill rate; 0 when it does not, and 0 when the BND series is too short
   * or the T-bill series is empty (both raise in the dashboard).
   */
  function BondVsTBillScore(bnd: seq<real>, tbill: seq<real>): (score: real)
    requires PositivePrices(bnd)
    ensures score == 0.0 || score == 1.0
    ensures score == 1.0 <==>
      && |bnd| >= LongHorizon * TradingDaysPerMonth
      && |tbill| > 0
      && BondBlend(bnd).value > TBillHurdle(Last(tbill))
  {
    if |tbill| == 0 then 0.0
    else
      match BondBlend(bnd)
      case None => 0.0
      case Some(b) => if b > TBillHurdle(Last(tbill)) then 1.0 else 0.0
  }

  /**
   * When every horizon return beats the hurdle the indicator scores 1, and
   * when none does it scores 0.
   */
  lemma BondVsTBillAllHorizons(bnd: seq<real>, tbill: seq<real>)
    requires PositivePrices(bnd)
    requires |bnd| >= LongHorizon * TradingDaysPerMonth && |tbill| > 0
    ensures var h := TBillHurdle(Last(tbill));
      var r3, r5, r11 := PercentReturn(bnd, ShortHorizon).value,
                         PercentReturn(bnd, MidHorizon).value,
                         PercentReturn(bnd, LongHorizon).value;
      && (r3 > h && r5 > h && r11 > h ==> BondVsTBillScore(bnd, tbill) == 1.0)
      && (r3 <= h && r5 <= h && r11 <= h ==> BondVsTBillScore(bnd, tbill) == 0.0)
  {
  }

  /**
   * Because the hurdle is a fraction, a T-bill rate anywhere in 0..100
   * gives a hurdle of at most 0.25, so a BND series whose three horizon
   * returns all exceed a quarter of a percent scores 1 whatever the rate.
   */
  lemma BondBeatsAnyTBillRate(bnd: seq<real>, tbill: seq<real>)
    requires PositivePrices(bnd)
    requires |bnd| >= LongHorizon * TradingDaysPerMonth && |tbill| > 0
    requires 0.0 <= Last(tbill) <= 100.0
    requires PercentReturn(bnd, ShortHorizon).value > 0.25
    requires PercentReturn(bnd, MidHorizon).value > 0.25
    requires PercentReturn(bnd, LongHorizon).value > 0.25
    ensures BondVsTBillScore(bnd, tbill) == 1.0
  {
  }

  // ---------------------------------------------------------------------
  // Citi Economic Surprise Index (manual input).
  // ---------------------------------------------------------------------

  function Abs(x: real): real {
    if x < 0.0 then -x else x
  }

  /**
   * The month-over-month percentage change relative to the magnitude of
   * the prior value; 0 when the prior value is 0. It is positive exactly
   * when there is a nonzero prior value and the current value exceeds it.
   */
  function MonthOverMonth(value: real, prev: real): (mom: real)
    ensures prev == 0.0 ==> mom == 0.0
    ensures prev != 0.0 ==> mom * Abs(prev) == (value - prev) * 100.0
    ensures mom > 0.0 <==> prev != 0.0 && value > prev
  {
    if prev != 0.0 then
      var d := value - prev;
      var m := Abs(prev);
      assert (d / m) * m == d;
      (d / m) * 100.0
    else 0.0
  }

  /**
   * Half a point for a value above 0, half a point for a positive
   * month-over-month change.
   */
  function CitiScore(value: real, prev: real): (score: real)
    ensures score == 0.0 || score == 0.5 || score == 1.0
    ensures score >= 0.5 <==> value > 0.0 || (prev != 0.0 && value > prev)
    ensures score == 1.0 <==> value > 0.0 && prev != 0.0 && value > prev
    ensures prev == 0.0 ==> score == (if value > 0.0 then 0.5 else 0.0)
  {
    var aboveZero := if value > 0.0 then 0.5 else 0.0;
    var momentum := if MonthOverMonth(value, prev) > 0.0 then 0.5 else 0.0;
    aboveZero + momentum
  }

  // ---------------------------------------------------------------------
  // Russell 3000 share of stocks above their 50-day MA (R3FI).
  // ---------------------------------------------------------------------

  const BreadthThreshold: real := 50.0

  /** The value the manual R3FI field shows before the user types anything. */
  const BreadthManualDefault: real := 50.0

  /**
   * 1 when the breadth reading is strictly above 50. The latest fetched
   * reading is used when the fetch returned a non-empty series; otherwise
   * the manually entered reading is.
   */
  function BreadthScore(r3fi: Option<seq<real>>, manual: real): (score: real)
    ensures score == 0.0 || score == 1.0
    ensures r3fi.Some? && |r3fi.value| > 0 ==>
      (score == 1.0 <==> Last(r3fi.value) > BreadthThreshold)
    ensures r3fi.None? || |r3fi.value| == 0 ==>
      (score == 1.0 <==> manual > BreadthThreshold)
  {
    var reading := if r3fi.Some? && |r3fi.value| > 0 then Last(r3fi.value) else manual;
    if reading > BreadthThreshold then 1.0 else 0.0
  }

  /** Left at its default, the manual reading scores 0. */
  lemma BreadthManualDefaultScoresZero(r3fi: Option<seq<real>>)
    requires r3fi.None? || |r3fi.value| == 0
    ensures BreadthScore(r3fi, BreadthManualDefault) == 0.0
  {
  }

  /** The fetched and the manual path apply the same rule to the same reading. */
  lemma BreadthPathsAgree(series: seq<real>, manual: real)
    requires |series| > 0
    ensures BreadthScore(Some(series), manual) == BreadthScore(None, Last(series))
  {
  }
}
