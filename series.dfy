/**
 * The two time-series helpers of the dashboard, `calc_ma` and `calc_return`,
 * over a price series given oldest observation first. Prices are reals; the
 * series' position, not the calendar, decides what "the last n" means.
 */
module TimeSeries {
  import opened Wrappers

  /** The number of trading days `calc_return` counts per month. */
  const TradingDaysPerMonth: nat := 21

  /** Every observation is a positive price. */
  predicate PositivePrices(s: seq<real>) {
    forall i :: 0 <= i < |s| ==> s[i] > 0.0
  }

  /** Every observation is strictly above every earlier one. */
  ghost predicate StrictlyIncreasing(s: seq<real>) {
    forall i, j :: 0 <= i < j < |s| ==> s[i] < s[j]
  }

  /** The most recent observation (`iloc[-1]`). */
  function Last(s: seq<real>): real
    requires |s| > 0
  {
    s[|s| - 1]
  }

  function Sum(s: seq<real>): real {
    if s == [] then 0.0 else s[0] + Sum(s[1..])
  }

  /** The last `n` observations (`tail(n)`). */
  function Tail(s: seq<real>, n: nat): (t: seq<real>)
    requires n <= |s|
    ensures |t| == n
    ensures forall i :: 0 <= i < n ==> t[i] == s[|s| - n + i]
  {
    s[|s| - n..]
  }

  /**
   * `calc_ma`: the mean of the last `period` observations, or `None` when
   * the series holds fewer than `period` of them.
   */
  function MovingAverage(data: seq<real>, period: nat): (ma: Option<real>)
    requires period >= 1
    ensures ma.None? <==> |data| < period
    ensures ma.Some? ==> ma.value * (period as real) == Sum(Tail(data, period))
  {
    if |data| < period then None else Some(Sum(Tail(data, period)) / (period as real))
  }

  /** The position of the observation `months` months (of 21 trading days) back. */
  function AnchorIndex(data: seq<real>, months: nat): (k: nat)
    requires months >= 1 && |data| >= months * TradingDaysPerMonth
    ensures k < |data| && k == |data| - months * TradingDaysPerMonth
  {
    |data| - months * TradingDaysPerMonth
  }

  /**
   * `calc_return`: the percentage change from the observation `months * 21`
   * places from the end (counting the last as the first) to the last one,
   * or `None` when the series is shorter than `months * 21`. The result `r`
   * is the rate that grows the anchor price into the last price, so it is
   * positive exactly when the price rose, zero when it did not move, and
   * never reaches -100 for positive prices.
   */
  function PercentReturn(data: seq<real>, months: nat): (r: Option<real>)
    requires months >= 1
    requires PositivePrices(data)
    ensures r.None? <==> |data| < months * TradingDaysPerMonth
    ensures r.Some? ==>
      var anchor := data[AnchorIndex(data, months)];
      && anchor * (1.0 + r.value / 100.0) == Last(data)
      && (r.value > 0.0 <==> Last(data) > anchor)
      && (r.value == 0.0 <==> Last(data) == anchor)
      && r.value > -100.0
  {
    if |data| < months * TradingDaysPerMonth then None
    else
      var anchor := data[AnchorIndex(data, months)];
      var r := (Last(data) / anchor - 1.0) * 100.0;
      assert r / 100.0 == Last(data) / anchor - 1.0;
      assert 1.0 + r / 100.0 == Last(data) / anchor;
      Some(r)
  }

  lemma {:induction false} SumAppend(a: seq<real>, b: seq<real>)
    ensures Sum(a + b) == Sum(a) + Sum(b)
  {
    if a == [] {
      assert a + b == b;
    } else {
      assert (a + b)[1..] == a[1..] + b;
      SumAppend(a[1..], b);
    }
  }

  lemma {:induction false} SumAtLeast(s: seq<real>, lo: real)
    requires forall i :: 0 <= i < |s| ==> s[i] >= lo
    ensures Sum(s) >= (|s| as real) * lo
  {
    if s != [] {
      SumAtLeast(s[1..], lo);
    }
  }

  lemma {:induction false} SumAtMost(s: seq<real>, hi: real)
    requires forall i :: 0 <= i < |s| ==> s[i] <= hi
    ensures Sum(s) <= (|s| as real) * hi
  {
    if s != [] {
      SumAtMost(s[1..], hi);
    }
  }

  lemma {:induction false} SumAbove(s: seq<real>, lo: real)
    requires |s| > 0
    requires forall i :: 0 <= i < |s| ==> s[i] > lo
    ensures Sum(s) > (|s| as real) * lo
  {
    if |s| > 1 {
      SumAbove(s[1..], lo);
    }
  }

  lemma {:induction false} SumBelow(s: seq<real>, hi: real)
    requires |s| > 0
    requires forall i :: 0 <= i < |s| ==> s[i] < hi
    ensures Sum(s) < (|s| as real) * hi
  {
    if |s| > 1 {
      SumBelow(s[1..], hi);
    }
  }

  /** A moving average lies between the smallest and largest price of its window. */
  lemma MovingAverageBounds(data: seq<real>, period: nat, lo: real, hi: real)
    requires period >= 1 && |data| >= period
    requires forall i :: |data| - period <= i < |data| ==> lo <= data[i] <= hi
    ensures lo <= MovingAverage(data, period).value <= hi
  {
    var w := Tail(data, period);
    var p := period as real;
    var ma := MovingAverage(data, period).value;
    SumAtLeast(w, lo);
    SumAtMost(w, hi);
    assert ma * p >= p * lo;
    assert (ma - lo) * p >= 0.0;
    assert ma * p <= p * hi;
    assert (hi - ma) * p >= 0.0;
  }

  /** The moving average of a series of positive prices is positive. */
  lemma MovingAveragePositive(data: seq<real>, period: nat)
    requires period >= 1 && |data| >= period
    requires PositivePrices(data)
    ensures MovingAverage(data, period).value > 0.0
  {
    var w := Tail(data, period);
    var ma := MovingAverage(data, period).value;
    SumAbove(w, 0.0);
    assert ma * (period as real) > 0.0;
  }

  /** A flat series averages to its price, whatever the period. */
  lemma MovingAverageConstant(data: seq<real>, period: nat, c: real)
    requires period >= 1 && |data| >= period
    requires forall i :: 0 <= i < |data| ==> data[i] == c
    ensures MovingAverage(data, period) == Some(c)
  {
    MovingAverageBounds(data, period, c, c);
  }

  /**
   * On a strictly rising series, a shorter trailing mean is strictly above
   * a longer one: the longer window adds only older, lower prices.
   */
  lemma MovingAverageRising(data: seq<real>, short: nat, long: nat)
    requires 1 <= short < long <= |data|
    requires StrictlyIncreasing(data)
    ensures MovingAverage(data, short).value > MovingAverage(data, long).value
  {
    var n := |data|;
    var x := data[n - short];
    forall i | n - long <= i < n - short ensures data[i] < x {}
    forall i | n - short <= i < n ensures data[i] >= x {}
    MovingAverageSplit(data, short, long, x);
  }

  /**
   * The shorter mean is above the longer one when some price `x` separates
   * the older part of the longer window (all below `x`) from the shorter
   * window (all at least `x`).
   */
  lemma MovingAverageSplit(data: seq<real>, short: nat, long: nat, x: real)
    requires 1 <= short < long <= |data|
    requires forall i :: |data| - long <= i < |data| - short ==> data[i] < x
    requires forall i :: |data| - short <= i < |data| ==> data[i] >= x
    ensures MovingAverage(data, short).value > MovingAverage(data, long).value
  {
    var n := |data|;
    var older := Sum(data[n - long..n - short]);
    var recent := Sum(Tail(data, short));
    assert Sum(Tail(data, long)) == older + recent by {
      TailSplit(data, short, long);
    }
    assert older < (long as real - short as real) * x by {
      OlderBelow(data, short, long, x);
    }
    assert recent >= (short as real) * x by {
      SumAtLeast(Tail(data, short), x);
    }
    MeansOfWindows(data, short, long, x, older, recent);
  }

  /** `MovingAverageSplit` once the window sums are known. */
  lemma MeansOfWindows(data: seq<real>, short: nat, long: nat, x: real, older: real, recent: real)
    requires 1 <= short < long <= |data|
    requires recent == Sum(Tail(data, short)) && Sum(Tail(data, long)) == older + recent
    requires older < (long as real - short as real) * x && recent >= (short as real) * x
    ensures MovingAverage(data, short).value > MovingAverage(data, long).value
  {
    var a, b := MovingAverage(data, short).value, MovingAverage(data, long).value;
    MeanOfLongerWindow(short as real, long as real, x, older, recent, a, b);
  }

  /** The long window is its older part followed by the short window. */
  lemma TailSplit(data: seq<real>, short: nat, long: nat)
    requires short <= long <= |data|
    ensures Sum(Tail(data, long)) == Sum(data[|data| - long..|data| - short]) + Sum(Tail(data, short))
  {
    var n := |data|;
    assert Tail(data, long) == data[n - long..n - short] + Tail(data, short);
    SumAppend(data[n - long..n - short], Tail(data, short));
  }

  /** The older part of the long window sums to less than its length times `x`. */
  lemma OlderBelow(data: seq<real>, short: nat, long: nat, x: real)
    requires short < long <= |data|
    requires forall i :: |data| - long <= i < |data| - short ==> data[i] < x
    ensures Sum(data[|data| - long..|data| - short]) < (long as real - short as real) * x
  {
    var n := |data|;
    var older := data[n - long..n - short];
    assert forall i :: 0 <= i < |older| ==> older[i] == data[n - long + i];
    SumBelow(older, x);
    assert |older| as real == long as real - short as real;
  }

  /**
   * The arithmetic step of `MovingAverageRising`: `a` is the mean of `s`
   * recent values all at least `x`, `b` the mean of those and `l - s`
   * older values all below `x`.
   */
  lemma MeanOfLongerWindow(s: real, l: real, x: real, older: real, recent: real, a: real, b: real)
    requires 0.0 < s < l
    requires older < (l - s) * x && recent >= s * x
    requires a * s == recent && b * l == older + recent
    ensures a > b
  {
  }

  /** The worked example: the 5-day mean of 10, 11, 12, 13, 14 is 12. */
  lemma MovingAverageExample()
    ensures MovingAverage([10.0, 11.0, 12.0, 13.0, 14.0], 5) == Some(12.0)
  {
  }
}
