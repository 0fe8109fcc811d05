/**
 * The two tabs' aggregation: each fills its score dictionary one indicator
 * at a time (an indicator whose computation fails stores 0 and leaves the
 * others alone), sums the dictionary, and maps the total to a percentage
 * and a label band.
 */
module Scoring {
  import opened Wrappers
  import opened TimeSeries
  import opened Indicators

  /** The keys of the liquidity dictionary, 'indicator1' to 'indicator3'. */
  datatype LiquidityIndicator = BondVsTBill | TipCross | IbitCross

  /** The keys of the sentiment dictionary, 'indicator1' to 'indicator4'. */
  datatype SentimentIndicator = CitiSurprise | Breadth | CyclicalDefensive | FftyCross

  /** Insertion order of the liquidity dictionary. */
  const LiquidityKeys: seq<LiquidityIndicator> := [BondVsTBill, TipCross, IbitCross]

  /** Insertion order of the sentiment dictionary. */
  const SentimentKeys: seq<SentimentIndicator> := [CitiSurprise, Breadth, CyclicalDefensive, FftyCross]

  /** The sum of the scores stored under `keys`, added in the order given. */
  function SumOver<K>(scores: map<K, real>, keys: seq<K>): real
    requires forall k :: k in keys ==> k in scores
  {
    if keys == [] then 0.0
    else SumOver(scores, keys[..|keys| - 1]) + scores[keys[|keys| - 1]]
  }

  /**
   * `sum(scores.values())`: the dictionary's values added one by one in
   * insertion order, `keys` being that order (every key of the dictionary,
   * each once).
   */
  method SumScores<K>(scores: map<K, real>, keys: seq<K>) returns (total: real)
    requires forall k :: k in scores <==> k in keys
    requires forall i, j :: 0 <= i < j < |keys| ==> keys[i] != keys[j]
    ensures total == SumOver(scores, keys)
  {
    total := 0.0;
    var i := 0;
    while i < |keys|
      invariant 0 <= i <= |keys|
      invariant total == SumOver(scores, keys[..i])
    {
      assert keys[..i + 1][..i] == keys[..i];
      total := total + scores[keys[i]];
      i := i + 1;
    }
    assert keys[..i] == keys;
  }

  /** Scores that each lie between 0 and 1 sum to between 0 and one point per key. */
  lemma {:induction false} SumOverBounds<K>(scores: map<K, real>, keys: seq<K>)
    requires forall k :: k in keys ==> k in scores && 0.0 <= scores[k] <= 1.0
    ensures 0.0 <= SumOver(scores, keys) <= |keys| as real
  {
    if keys != [] {
      var init := keys[..|keys| - 1];
      assert forall k :: k in init ==> k in keys;
      SumOverBounds(scores, init);
    }
  }

  // ---------------------------------------------------------------------
  // Liquidity tab.
  // ---------------------------------------------------------------------

  /**
   * Fills the liquidity dictionary (BND vs T-bill, TIP 5/20 cross, IBIT 3/8
   * cross) and sums it. Each entry depends on its own series only, so one
   * indicator failing zeroes that entry and no other. The total is a whole
   * number of points from 0 to 3.
   */
  method EvaluateLiquidity(bnd: seq<real>, tip: seq<real>, ibit: seq<real>, tbill: seq<real>)
    returns (scores: map<LiquidityIndicator, real>, total: real)
    requires PositivePrices(bnd)
    ensures scores.Keys == {BondVsTBill, TipCross, IbitCross}
    ensures scores[BondVsTBill] == BondVsTBillScore(bnd, tbill)
    ensures scores[TipCross] == MaCrossScore(tip, TipShort, TipLong)
    ensures scores[IbitCross] == MaCrossScore(ibit, FastShort, FastLong)
    ensures total == scores[BondVsTBill] + scores[TipCross] + scores[IbitCross]
    ensures total == 0.0 || total == 1.0 || total == 2.0 || total == 3.0
  {
    scores := map[];
    scores := scores[BondVsTBill := BondVsTBillScore(bnd, tbill)];
    scores := scores[TipCross := MaCrossScore(tip, TipShort, TipLong)];
    scores := scores[IbitCross := MaCrossScore(ibit, FastShort, FastLong)];
    total := SumScores(scores, LiquidityKeys);
    var ks := LiquidityKeys;
    assert ks[..2] == [BondVsTBill, TipCross] && ks[..2][..1] == [BondVsTBill];
    assert SumOver(scores, ks[..2][..1]) == scores[BondVsTBill];
    assert SumOver(scores, ks[..2]) == scores[BondVsTBill] + scores[TipCross];
  }

  /** The liquidity percentage: the share of the three points scored. */
  function LiquidityPercentage(total: real): (pct: real)
    ensures pct * 3.0 == total * 100.0
    ensures 0.0 <= total <= 3.0 ==> 0.0 <= pct <= 100.0
    ensures pct == 100.0 <==> total == 3.0
  {
    total / 3.0 * 100.0
  }

  datatype LiquidityLevel = Strong | Moderate | Weak | Poor

  /** The label band: 3 points strong, 2 moderate, 1 weak, anything else poor. */
  function LiquidityLevelOf(total: real): (level: LiquidityLevel)
    ensures level == Strong <==> total == 3.0
    ensures level == Moderate <==> total == 2.0
    ensures level == Weak <==> total == 1.0
    ensures level == Poor <==> total != 3.0 && total != 2.0 && total != 1.0
  {
    if total == 3.0 then Strong
    else if total == 2.0 then Moderate
    else if total == 1.0 then Weak
    else Poor
  }

  /**
   * On three 0/1 scores the bands say what their captions say: strong
   * exactly when every indicator is positive, poor exactly when every
   * indicator is negative, moderate and weak for two and one positives.
   */
  lemma LiquidityLevelMeaning(a: real, b: real, c: real)
    requires a == 0.0 || a == 1.0
    requires b == 0.0 || b == 1.0
    requires c == 0.0 || c == 1.0
    ensures LiquidityLevelOf(a + b + c) == Strong <==> a == 1.0 && b == 1.0 && c == 1.0
    ensures LiquidityLevelOf(a + b + c) == Poor <==> a == 0.0 && b == 0.0 && c == 0.0
    ensures LiquidityLevelOf(a + b + c) == Moderate <==> a + b + c == 2.0
    ensures LiquidityLevelOf(a + b + c) == Weak <==> a + b + c == 1.0
  {
  }

  // ---------------------------------------------------------------------
  // Sentiment tab.
  // ---------------------------------------------------------------------

  /**
   * Fills the sentiment dictionary (Citi surprise, R3FI breadth, XLY/XLP
   * ratio 3/8 cross, FFTY 3/8 cross) and sums it. A series passed as `None`
   * is one the fetch could not supply. The total is a whole number of half
   * points from 0 to 4.
   */
  method EvaluateSentiment(citiValue: real, citiPrev: real,
                           r3fi: Option<seq<real>>, r3fiManual: real,
                           xly: Option<seq<real>>, xlp: Option<seq<real>>,
                           ffty: Option<seq<real>>)
    returns (scores: map<SentimentIndicator, real>, total: real)
    requires xly.Some? && xlp.Some? ==>
      |xly.value| == |xlp.value| && PositivePrices(xlp.value)
    ensures scores.Keys == {CitiSurprise, Breadth, CyclicalDefensive, FftyCross}
    ensures scores[CitiSurprise] == CitiScore(citiValue, citiPrev)
    ensures scores[Breadth] == BreadthScore(r3fi, r3fiManual)
    ensures scores[CyclicalDefensive] == CyclicalDefensiveScore(xly, xlp)
    ensures scores[FftyCross] == FftyScore(ffty)
    ensures total == scores[CitiSurprise] + scores[Breadth] + scores[CyclicalDefensive] + scores[FftyCross]
    ensures total in {0.0, 0.5, 1.0, 1.5, 2.0, 2.5, 3.0, 3.5, 4.0}
  {
    scores := map[];
    scores := scores[CitiSurprise := CitiScore(citiValue, citiPrev)];
    scores := scores[Breadth := BreadthScore(r3fi, r3fiManual)];
    scores := scores[CyclicalDefensive := CyclicalDefensiveScore(xly, xlp)];
    scores := scores[FftyCross := FftyScore(ffty)];
    total := SumScores(scores, SentimentKeys);
    var ks := SentimentKeys;
    assert ks[..3] == [CitiSurprise, Breadth, CyclicalDefensive];
    assert ks[..3][..2] == [CitiSurprise, Breadth] && ks[..3][..2][..1] == [CitiSurprise];
    assert SumOver(scores, ks[..3][..2][..1]) == scores[CitiSurprise];
    assert SumOver(scores, ks[..3][..2]) == scores[CitiSurprise] + scores[Breadth];
    assert SumOver(scores, ks[..3]) == scores[CitiSurprise] + scores[Breadth] + scores[CyclicalDefensive];
  }

  /** The sentiment percentage: the share of the four points scored. */
  function SentimentPercentage(total: real): (pct: real)
    ensures pct * 4.0 == total * 100.0
    ensures 0.0 <= total <= 4.0 ==> 0.0 <= pct <= 100.0
    ensures pct == 100.0 <==> total == 4.0
  {
    total / 4.0 * 100.0
  }

  datatype SentimentLevel = VeryPositive | Positive | Neutral | Negative

  /** The label band, thresholds 3.5, 2.5 and 1.5 tried from the top. */
  function SentimentLevelOf(total: real): (level: SentimentLevel)
    ensures level == VeryPositive <==> total >= 3.5
    ensures level == Positive <==> 2.5 <= total < 3.5
    ensures level == Neutral <==> 1.5 <= total < 2.5
    ensures level == Negative <==> total < 1.5
  {
    if total >= 3.5 then VeryPositive
    else if total >= 2.5 then Positive
    else if total >= 1.5 then Neutral
    else Negative
  }

  /** Bands ordered from the most to the least positive. */
  function SentimentRank(level: SentimentLevel): nat {
    match level
    case VeryPositive => 3
    case Positive => 2
    case Neutral => 1
    case Negative => 0
  }

  /** A higher sentiment total never lands in a lower band. */
  lemma SentimentLevelMonotone(t1: real, t2: real)
    requires t1 <= t2
    ensures SentimentRank(SentimentLevelOf(t1)) <= SentimentRank(SentimentLevelOf(t2))
  {
  }
}
