/**
  The mock analysis generator: from the drawn prices and indicators it
  builds the four trading signals, decides the recommendation, the
  confidence, the volatility and the risk level, and assembles the result.
  The random draws and the generation timestamp are parameters.
*/
module Generator {
  import opened Signals

  /** The technical indicators: RSI and SMA/EMA in hundredths, MACD and its signal line in ten-thousandths. */
  datatype Indicators = Indicators(rsi: int, macd: int, macdSignal: int, sma: int, ema: int)

  /** The values drawn at random (after rounding), in hundredths except the MACD pair. */
  datatype Draws = Draws(
    currentPrice: int,
    priceChange: int,
    indicators: Indicators,
    support: int,
    resistance: int)

  /** The ranges the draws come from. */
  predicate InRange(d: Draws) {
    var p := d.currentPrice;
    var ind := d.indicators;
    && 1000 <= p <= 10000
    && -500 <= d.priceChange <= 500
    && 2000 <= ind.rsi <= 8000
    && -20000 <= ind.macd <= 20000
    && -20000 <= ind.macdSignal <= 20000
    && p - 500 <= ind.sma <= p + 500
    && p - 500 <= ind.ema <= p + 500
    && p - 500 <= d.support <= p - 200
    && p + 200 <= d.resistance <= p + 500
  }

  const Disclaimer: string := "This analysis is for informational purposes only."

  /**
    One generated analysis, as the service returns and caches it. Money and
    indicator fields are in the units of `Indicators`; the volatility is in
    hundredths of a percent; the percentages and the mid level are exact.
  */
  datatype Analysis = Analysis(
    stockTicker: string,
    currentPrice: int,
    priceChange: int,
    priceChangePercent: real,
    volatilityPercent: int,
    indicators: Indicators,
    supportLevel: int,
    resistanceLevel: int,
    midLevel: real,
    recommendation: Recommendation,
    confidencePercent: real,
    riskLevel: Risk,
    tradingSignals: seq<Signal>,
    analysisTimestamp: string,
    disclaimer: string)

  /** The four signals in their fixed order: RSI, MACD, price vs SMA, price vs EMA. */
  function SignalsFor(price: int, ind: Indicators): seq<Signal> {
    [RsiSignal(ind.rsi), MacdSignal(ind.macd, ind.macdSignal),
     PriceSignal(Sma, price, ind.sma), PriceSignal(Ema, price, ind.ema)]
  }

  /** The score of each signal, position by position. */
  function Scores(signals: seq<Signal>): (r: seq<int>)
    ensures |r| == |signals| && UnitScores(r)
    ensures forall i :: 0 <= i < |signals| ==> r[i] == Score(signals[i])
  {
    if signals == [] then [] else [Score(signals[0])] + Scores(signals[1..])
  }

  /** The total of the four signal scores that a price and its indicators give. */
  function SignalTotal(price: int, ind: Indicators): int {
    Sum(Scores(SignalsFor(price, ind)))
  }

  /**
    Builds the signals and their scores by appending, per rule and in the
    order RSI, MACD, SMA, EMA, the rule's signal and its score; exactly four
    of each come out, so the list of scores is never empty.
  */
  method BuildSignals(price: int, ind: Indicators) returns (signals: seq<Signal>, scores: seq<int>)
    ensures signals == SignalsFor(price, ind)
    ensures scores == Scores(signals)
    ensures |signals| == 4 && |scores| == 4
    ensures signals[0].indicator == Rsi && signals[1].indicator == Macd
    ensures signals[2].indicator == Sma && signals[3].indicator == Ema
  {
    signals, scores := [], [];
    var rsi := RsiSignal(ind.rsi);
    signals, scores := signals + [rsi], scores + [Score(rsi)];
    var macd := MacdSignal(ind.macd, ind.macdSignal);
    signals, scores := signals + [macd], scores + [Score(macd)];
    var sma := PriceSignal(Sma, price, ind.sma);
    signals, scores := signals + [sma], scores + [Score(sma)];
    var ema := PriceSignal(Ema, price, ind.ema);
    signals, scores := signals + [ema], scores + [Score(ema)];
    ScoresPointwise(signals, scores);
  }

  /** A list that agrees with the scores of the signals position by position is their list of scores. */
  lemma ScoresPointwise(signals: seq<Signal>, scores: seq<int>)
    requires |scores| == |signals|
    requires forall i :: 0 <= i < |signals| ==> scores[i] == Score(signals[i])
    ensures scores == Scores(signals)
  {
  }

  /** The drawn values that an analysis reports. */
  function DrawsOf(a: Analysis): Draws {
    Draws(a.currentPrice, a.priceChange, a.indicators, a.supportLevel, a.resistanceLevel)
  }

  /**
    The signals, recommendation and confidence of an analysis follow from
    its own price and indicators.
  */
  predicate SignalsCoherent(a: Analysis) {
    && a.tradingSignals == SignalsFor(a.currentPrice, a.indicators)
    && a.recommendation == Recommend(AverageScore(Scores(a.tradingSignals)))
    && a.confidencePercent == Confidence(AverageScore(Scores(a.tradingSignals)))
  }

  /**
    The percentage change, volatility, risk level and mid level of an
    analysis follow from its own price, change, support and resistance.
  */
  predicate LevelsCoherent(a: Analysis) {
    && a.currentPrice > 0
    && a.priceChangePercent == PriceChangePercent(a.priceChange, a.currentPrice)
    && a.volatilityPercent == Volatility(a.supportLevel, a.resistanceLevel, a.currentPrice)
    && a.riskLevel == RiskFor(a.volatilityPercent)
    && a.midLevel == MidLevel(a.supportLevel, a.resistanceLevel)
  }

  /** The cross-field consistency of an analysis, and its fixed disclaimer. */
  predicate Coherent(a: Analysis) {
    SignalsCoherent(a) && LevelsCoherent(a) && a.disclaimer == Disclaimer
  }

  /**
    The recommendation of a coherent analysis is decided by the total of its
    four signal scores (BUY at 2 or more, SELL at -2 or less, HOLD between),
    and its confidence is 0, 25, 50, 75 or 100: at least 50 with BUY or SELL,
    at most 25 with HOLD.
  */
  lemma {:induction false} CoherentDecision(a: Analysis)
    requires SignalsCoherent(a)
    ensures |a.tradingSignals| == 4
    ensures a.recommendation == Buy <==> SignalTotal(a.currentPrice, a.indicators) >= 2
    ensures a.recommendation == Sell <==> SignalTotal(a.currentPrice, a.indicators) <= -2
    ensures a.recommendation == Hold <==> -1 <= SignalTotal(a.currentPrice, a.indicators) <= 1
    ensures a.confidencePercent in {0.0, 25.0, 50.0, 75.0, 100.0}
    ensures a.recommendation != Hold ==> a.confidencePercent >= 50.0
    ensures a.recommendation == Hold ==> a.confidencePercent <= 25.0
  {
    FourScoreDecision(Scores(a.tradingSignals));
  }

  /**
    An analysis built from in-range draws never has LOW risk (its volatility
    is at least 4 percent), its mid level lies strictly between support and
    resistance, and its percentage change is within 50 percent with the sign
    of the change.
  */
  lemma CoherentLevels(a: Analysis)
    requires LevelsCoherent(a) && InRange(DrawsOf(a))
    ensures a.volatilityPercent >= 400 && a.riskLevel != Low
    ensures a.riskLevel == High <==> a.volatilityPercent > 500
    ensures (a.supportLevel as real) < a.midLevel < (a.resistanceLevel as real)
    ensures -50.0 <= a.priceChangePercent <= 50.0
    ensures (a.priceChangePercent > 0.0) == (a.priceChange > 0)
  {
    VolatilityAtLeastFour(a.supportLevel, a.resistanceLevel, a.currentPrice);
    PriceChangePercentBounds(a.priceChange, a.currentPrice);
  }

  /**
    Generates the analysis of `ticker` from the draws `d`, stamped `now`.
    The result reports the draws unchanged, carries the ticker as given, and
    is coherent; its risk is never LOW.
  */
  method Generate(ticker: string, d: Draws, now: string) returns (a: Analysis)
    requires InRange(d)
    ensures a.stockTicker == ticker && a.analysisTimestamp == now
    ensures DrawsOf(a) == d
    ensures Coherent(a)
    ensures a.riskLevel != Low
  {
    var price := d.currentPrice;
    var changePercent := PriceChangePercent(d.priceChange, price);
    var signals, scores := BuildSignals(price, d.indicators);
    var avg := AverageScore(scores);
    var confidence := Confidence(avg);
    var recommendation := Recommend(avg);
    var volatility := Volatility(d.support, d.resistance, price);
    var risk := RiskFor(volatility);
    a := Analysis(
      ticker, price, d.priceChange, changePercent, volatility, d.indicators,
      d.support, d.resistance, MidLevel(d.support, d.resistance),
      recommendation, confidence, risk, signals, now, Disclaimer);
    CoherentLevels(a);
  }
}
