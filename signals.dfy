/**
  The deterministic decision rules of the mock technical analysis: the four
  indicator signals and their scores, the averaged score, the confidence and
  the BUY/SELL/HOLD recommendation, the volatility and its risk ladder, and
  the mid level between support and resistance.

  Units: prices, moving averages, support, resistance, price changes and the
  RSI are integers in hundredths (the source rounds them to 2 decimals); the
  MACD line and its signal line are integers in ten-thousandths (4 decimals).
  Quotients derived from them are exact reals.
*/
module Signals {

  datatype Indicator = Rsi | Macd | Sma | Ema

  /** The category of a signal's message: what the comparison found. */
  datatype Reading = Overbought | Oversold | Neutral | Above | Below

  /** One trading signal: which indicator it is about and what it read. */
  datatype Signal = Signal(indicator: Indicator, reading: Reading)

  datatype Recommendation = Buy | Sell | Hold

  datatype Risk = Low | Medium | High

  /** RSI thresholds, 70 and 30, in hundredths. */
  const RsiOverbought: int := 7000
  const RsiOversold: int := 3000

  /** Average-score thresholds for BUY and SELL. */
  const BuyThreshold: real := 0.3
  const SellThreshold: real := -0.3

  /** The score a signal contributes: +1 for a BUY signal, -1 for a SELL signal, 0 when neutral. */
  function Score(s: Signal): (r: int)
    ensures -1 <= r <= 1
    ensures r == 0 <==> s.reading == Neutral
  {
    match s.reading
    case Overbought => -1
    case Oversold => 1
    case Neutral => 0
    case Above => 1
    case Below => -1
  }

  /** RSI above 70 is overbought (SELL), below 30 oversold (BUY); 30 and 70 themselves are neutral. */
  function RsiSignal(rsi: int): (s: Signal)
    ensures s.indicator == Rsi
    ensures Score(s) == -1 <==> rsi > RsiOverbought
    ensures Score(s) == 1 <==> rsi < RsiOversold
    ensures Score(s) == 0 <==> RsiOversold <= rsi <= RsiOverbought
    ensures s.reading == Overbought <==> rsi > RsiOverbought
    ensures s.reading == Oversold <==> rsi < RsiOversold
    ensures s.reading in {Overbought, Oversold, Neutral}
  {
    if rsi > RsiOverbought then Signal(Rsi, Overbought)
    else if rsi < RsiOversold then Signal(Rsi, Oversold)
    else Signal(Rsi, Neutral)
  }

  /** MACD strictly above its signal line is a BUY signal; a tie reads as "below", a SELL signal. */
  function MacdSignal(macd: int, signalLine: int): (s: Signal)
    ensures s.indicator == Macd
    ensures Score(s) == 1 <==> macd > signalLine
    ensures Score(s) == -1 <==> macd <= signalLine
    ensures s.reading == Above <==> macd > signalLine
    ensures s.reading in {Above, Below}
  {
    if macd > signalLine then Signal(Macd, Above) else Signal(Macd, Below)
  }

  /**
    The price against a moving average (SMA or EMA): strictly above is a BUY
    signal, otherwise, a tie included, a SELL signal.
  */
  function PriceSignal(average: Indicator, price: int, level: int): (s: Signal)
    requires average == Sma || average == Ema
    ensures s.indicator == average
    ensures Score(s) == 1 <==> price > level
    ensures Score(s) == -1 <==> price <= level
    ensures s.reading == Above <==> price > level
    ensures s.reading in {Above, Below}
  {
    if price > level then Signal(average, Above) else Signal(average, Below)
  }

  /** The RSI score falls (weakly) as the RSI rises. */
  lemma RsiScoreAntitone(lo: int, hi: int)
    requires lo <= hi
    ensures Score(RsiSignal(hi)) <= Score(RsiSignal(lo))
  {
  }

  /**
    Swapping the MACD line and its signal line negates the score unless they
    are equal; on a tie both orders score -1.
  */
  lemma MacdSwap(macd: int, signalLine: int)
    ensures macd != signalLine ==> Score(MacdSignal(signalLine, macd)) == -Score(MacdSignal(macd, signalLine))
    ensures macd == signalLine ==> Score(MacdSignal(signalLine, macd)) == Score(MacdSignal(macd, signalLine)) == -1
  {
  }

  function Sum(scores: seq<int>): int {
    if scores == [] then 0 else scores[0] + Sum(scores[1..])
  }

  predicate UnitScores(scores: seq<int>) {
    forall i :: 0 <= i < |scores| ==> -1 <= scores[i] <= 1
  }

  /** Scores each in [-1, 1] sum to at most their number in absolute value. */
  lemma {:induction false} SumBounded(scores: seq<int>)
    requires UnitScores(scores)
    ensures -|scores| <= Sum(scores) <= |scores|
  {
    if scores != [] {
      SumBounded(scores[1..]);
    }
  }

  /**
    The mean of the scores, or 0 when there are none (the source's guard
    against dividing by zero).
  */
  function AverageScore(scores: seq<int>): (avg: real)
    ensures scores == [] ==> avg == 0.0
    ensures scores != [] ==> avg * (|scores| as real) == Sum(scores) as real
  {
    if scores == [] then 0.0 else Sum(scores) as real / |scores| as real
  }

  /** Unit scores average to a value in [-1, 1]. */
  lemma AverageBounded(scores: seq<int>)
    requires UnitScores(scores)
    ensures -1.0 <= AverageScore(scores) <= 1.0
  {
    SumBounded(scores);
    if scores != [] {
      var n := |scores| as real;
      var avg := AverageScore(scores);
      assert avg * n == Sum(scores) as real;
    }
  }

  /** The confidence is the absolute average score as a percentage. */
  function Confidence(avg: real): (c: real)
    ensures c >= 0.0
    ensures c == 0.0 <==> avg == 0.0
    ensures c == 100.0 * avg || c == -100.0 * avg
  {
    if avg < 0.0 then -avg * 100.0 else avg * 100.0
  }

  /** BUY above 0.3, SELL below -0.3, HOLD in between (both bounds HOLD). */
  function Recommend(avg: real): (r: Recommendation)
    ensures r == Buy <==> avg > BuyThreshold
    ensures r == Sell <==> avg < SellThreshold
    ensures r == Hold <==> SellThreshold <= avg <= BuyThreshold
  {
    if avg > BuyThreshold then Buy
    else if avg < SellThreshold then Sell
    else Hold
  }

  /**
    With exactly four unit scores the average is a multiple of 1/4, so the
    recommendation depends only on the integer total: BUY iff it is at least
    2, SELL iff at most -2; the confidence is one of 0, 25, 50, 75 or 100,
    at least 50 for BUY or SELL and at most 25 for HOLD.
  */
  lemma {:induction false} FourScoreDecision(scores: seq<int>)
    requires |scores| == 4 && UnitScores(scores)
    ensures Recommend(AverageScore(scores)) == Buy <==> Sum(scores) >= 2
    ensures Recommend(AverageScore(scores)) == Sell <==> Sum(scores) <= -2
    ensures Recommend(AverageScore(scores)) == Hold <==> -1 <= Sum(scores) <= 1
    ensures Confidence(AverageScore(scores)) in {0.0, 25.0, 50.0, 75.0, 100.0}
    ensures Recommend(AverageScore(scores)) != Hold ==> Confidence(AverageScore(scores)) >= 50.0
    ensures Recommend(AverageScore(scores)) == Hold ==> Confidence(AverageScore(scores)) <= 25.0
  {
    SumBounded(scores);
    var total := Sum(scores);
    var avg := AverageScore(scores);
    assert avg * 4.0 == total as real;
    assert avg == total as real / 4.0;
  }

  /**
    Volatility in hundredths of a percent: the support-to-resistance spread
    as a percentage of the current price, rounded to 2 decimals (half up).
  */
  function Volatility(support: int, resistance: int, price: int): (v: int)
    requires price > 0
    ensures 2 * v * price - price <= 2 * (resistance - support) * 10000 < 2 * v * price + price
  {
    (2 * (resistance - support) * 10000 + price) / (2 * price)
  }

  /** Risk-ladder thresholds, 5 and 2 percent, in hundredths of a percent. */
  const HighRiskAbove: int := 500
  const MediumRiskAbove: int := 200

  /** HIGH above 5 percent, MEDIUM above 2 up to 5, LOW at 2 or below. */
  function RiskFor(volatility: int): (r: Risk)
    ensures r == High <==> volatility > HighRiskAbove
    ensures r == Medium <==> MediumRiskAbove < volatility <= HighRiskAbove
    ensures r == Low <==> volatility <= MediumRiskAbove
  {
    if volatility > HighRiskAbove then High
    else if volatility > MediumRiskAbove then Medium
    else Low
  }

  /**
    Because the risk ladder reads the rounded volatility, the risk is HIGH
    exactly when the unrounded volatility reaches 5.005 percent, and at
    least MEDIUM exactly when it reaches 2.005 percent.
  */
  lemma RiskFromSpread(support: int, resistance: int, price: int)
    requires price > 0
    ensures RiskFor(Volatility(support, resistance, price)) == High <==>
              2 * (resistance - support) * 10000 >= 1001 * price
    ensures RiskFor(Volatility(support, resistance, price)) != Low <==>
              2 * (resistance - support) * 10000 >= 401 * price
  {
    var v := Volatility(support, resistance, price);
    var x := 2 * (resistance - support) * 10000;
    var vp := v * price;
    assert 2 * vp - price <= x < 2 * vp + price;
    if v >= 501 {
      MulMonotone(501, v, price);
      assert x >= 1001 * price;
    } else {
      MulMonotone(v, 500, price);
      assert x < 1001 * price;
    }
    if v >= 201 {
      MulMonotone(201, v, price);
      assert x >= 401 * price;
    } else {
      MulMonotone(v, 200, price);
      assert x < 401 * price;
    }
  }

  lemma MulMonotone(a: int, b: int, p: int)
    requires a <= b && p > 0
    ensures a * p <= b * p
  {
  }

  /**
    With a price of at most 100.00 and support and resistance at least 2.00
    away from it on either side, the volatility is at least 4 percent, so the
    risk is never LOW.
  */
  lemma VolatilityAtLeastFour(support: int, resistance: int, price: int)
    requires 0 < price <= 10000
    requires support <= price - 200 && resistance >= price + 200
    ensures Volatility(support, resistance, price) >= 400
    ensures RiskFor(Volatility(support, resistance, price)) != Low
  {
  }

  /** The mid level is equidistant from support and resistance. */
  function MidLevel(support: int, resistance: int): (m: real)
    ensures m - support as real == resistance as real - m
    ensures support <= resistance ==> support as real <= m <= resistance as real
  {
    (support + resistance) as real / 2.0
  }

  /** The day's price change as a percentage of the current price. */
  function PriceChangePercent(change: int, price: int): (pct: real)
    requires price > 0
    ensures pct * (price as real) == change as real * 100.0
  {
    change as real / price as real * 100.0
  }

  /** The percentage has the sign of the change, and with a price of at least 10.00 and a change of at most 5.00 either way it is within 50 percent. */
  lemma PriceChangePercentBounds(change: int, price: int)
    requires price >= 1000 && -500 <= change <= 500
    ensures (PriceChangePercent(change, price) > 0.0) == (change > 0)
    ensures (PriceChangePercent(change, price) < 0.0) == (change < 0)
    ensures -50.0 <= PriceChangePercent(change, price) <= 50.0
  {
  }
}
