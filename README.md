# Mock stock analysis service: a Dafny model

The service answers HTTP requests for a "technical analysis" of a stock
ticker. The analysis is synthesised from random draws: a price, a day's
change, the RSI, the MACD line and its signal line, SMA and EMA moving
averages, and support and resistance levels. From these it derives four
trading signals (RSI, MACD, price vs SMA, price vs EMA), each scoring -1, 0
or +1. The mean score gives the confidence and a BUY/SELL/HOLD
recommendation. The support-resistance spread gives the volatility and its
LOW/MEDIUM/HIGH risk level, and the two levels give a mid level. Each result
is cached in memory under the upper-cased ticker, and the cache can be
listed, exported from and counted.

This model covers that logic:

- `ascii.dfy`:
  - `Ascii`: upper-casing of tickers, restricted to ASCII.
  - `Wrappers`: an `Option` type.
- `signals.dfy`, module `Signals`: the pure decision rules, as functions
  with lemmas.
- `generator.dfy`, module `Generator`: the analysis record and its
  generation. The random draws come in as a `Draws` parameter, and the
  ranges they are drawn from are its precondition (`InRange`). The signals
  and scores are built by successive appends, as in the source.
- `cache.dfy`, module `Cache`: the cache as the class `AnalysisStore`. Its
  `entries` map goes from upper-case ticker to entry. Its `order` sequence
  gives the dictionary's iteration order: first insertion, and an
  overwritten key keeps its place. The methods are the four handlers that
  use the cache.

Units: prices, moving averages, support, resistance, the price change and
the RSI are integers in hundredths. The source rounds them to 2 decimals, so
they are exact. The MACD pair is in ten-thousandths (4 decimals). The
volatility is in hundredths of a percent, rounded half up, because the risk
ladder reads the rounded value. The price-change percentage, the mid level,
the mean score and the confidence are exact reals.

Timestamps are parameters: the analysis timestamp, the time an entry is
stored and the health-check time all read the wall clock in the source.

The generator accepts any string as the ticker, `""` included. The cache
has no lock, and the model is sequential.

## Model

| member | source | states |
|---|---|---|
| `Ascii.ToUpper` | app.py:24 | the upper-cased ticker has the same length and each character is upper-cased in place (only 'a'..'z' change) |
| `Ascii.UpperHasNoLower` | app.py:24 | an upper-cased ticker contains no lower-case ASCII letter |
| `Ascii.UpperFixedPoint` | app.py:24 | upper-casing leaves a string unchanged exactly when it has no lower-case letter (both directions) |
| `Ascii.UpperIdempotent` | app.py:55-56 | upper-casing a stored key again gives the same key, so export finds what analyse stored |
| `Ascii.SameKeyIffEqualIgnoringCase` | app.py:55 | two tickers map to the same cache key exactly when they agree letter by letter up to ASCII case |
| `Signals.Score` | app.py:88-117 | each signal scores in [-1, 1], and 0 exactly for a Neutral reading (which only the RSI rule produces) |
| `Signals.RsiSignal` | app.py:88-96 | the RSI score is -1 iff rsi > 70, +1 iff rsi < 30, 0 iff 30 <= rsi <= 70 (both bounds neutral); the reading is Overbought, Oversold or Neutral correspondingly |
| `Signals.MacdSignal` | app.py:98-103 | the MACD score is +1 iff macd > signal strictly, and -1 iff macd <= signal (a tie counts as below); the reading is Above iff strictly above, else Below |
| `Signals.PriceSignal` | app.py:105-117 | the SMA/EMA score is +1 iff the price is strictly above the average, otherwise (tie included) -1; the reading is Above or Below correspondingly |
| `Signals.RsiScoreAntitone` | app.py:88-96 | a higher RSI never gives a higher RSI score |
| `Signals.MacdSwap` | app.py:98-103 | swapping MACD and signal line negates the score except on a tie, where both orders score -1 |
| `Signals.SumBounded` | app.py:119 | n scores each in [-1, 1] total between -n and n |
| `Signals.AverageScore` | app.py:119 | the mean times the number of scores is their total; no scores give 0 (the divide-by-zero guard) |
| `Signals.AverageBounded` | app.py:119 | the mean of unit scores lies in [-1, 1] |
| `Signals.Confidence` | app.py:120 | the confidence is non-negative, zero only for a zero mean, and equals 100 times the mean or its negation |
| `Signals.Recommend` | app.py:122-127 | BUY iff mean > 0.3, SELL iff mean < -0.3, HOLD iff -0.3 <= mean <= 0.3 |
| `Signals.FourScoreDecision` | app.py:85-127 | with four unit scores: BUY iff total >= 2, SELL iff total <= -2, HOLD iff total in [-1, 1]; confidence in {0, 25, 50, 75, 100}, >= 50 for BUY/SELL, <= 25 for HOLD |
| `Signals.Volatility` | app.py:129 | the volatility is the spread as a percentage of the price, rounded to hundredths: within half a hundredth of the exact value |
| `Signals.RiskFor` | app.py:130 | HIGH iff volatility > 5, MEDIUM iff 2 < volatility <= 5, LOW iff volatility <= 2 |
| `Signals.RiskFromSpread` | app.py:129-130 | in terms of the unrounded spread ratio: HIGH iff it reaches 5.005 percent, not LOW iff it reaches 2.005 percent |
| `Signals.VolatilityAtLeastFour` | app.py:82-83 | with price <= 100 and support/resistance at least 2 below/above it, volatility >= 4 percent, so risk is never LOW |
| `Signals.MidLevel` | app.py:150 | the mid level is equidistant from support and resistance and lies between them |
| `Signals.PriceChangePercent` | app.py:74 | the percentage times the price is 100 times the change |
| `Signals.PriceChangePercentBounds` | app.py:72-74 | for the drawn ranges, the percentage has the sign of the change and lies within [-50, 50] |
| `Generator.Scores` | app.py:85-117 | one score per signal, position by position, each in [-1, 1] |
| `Generator.BuildSignals` | app.py:85-117 | the appends yield exactly four signals and four scores in the order RSI, MACD, SMA, EMA, each score that of its signal's rule; the score list is never empty |
| `Generator.CoherentDecision` | app.py:119-127 | a generated analysis has four signals; its recommendation follows the integer score total (BUY >= 2, SELL <= -2), its confidence is in {0, 25, 50, 75, 100}, >= 50 for BUY/SELL and <= 25 for HOLD |
| `Generator.CoherentLevels` | app.py:129-150 | an analysis from in-range draws has volatility >= 4 percent and risk not LOW, a mid level strictly between support and resistance, and a change percentage within 50 percent with the change's sign |
| `Generator.Generate` | app.py:70-157 | the result carries the ticker as given and the draws unchanged; its signals, recommendation, confidence, volatility, risk, mid level and percentage are those the rules derive from its own fields; risk is never LOW |
| `Cache.RequestKey` | app.py:23-24 | a body yields the upper-cased ticker, "UNKNOWN" when absent, and nothing when it is not an object or the ticker is not a string; a key has no lower-case letter |
| `Cache.DistinctListingSize` | app.py:43-50 | a duplicate-free listing of a set's elements is as long as the set |
| `Cache.AnalysisStore.constructor` | app.py:12 | the cache starts empty |
| `Cache.AnalysisStore.OrderSize` | app.py:43-50 | the iteration order lists as many keys as the cache holds |
| `Cache.AnalysisStore.Analyze` | app.py:19-37 | on a usable body: generate first, then store under the upper-cased ticker, which is the result's `stock_ticker`; replaces that key only, other keys unchanged; the count grows by one iff the key is new; a new key goes last in the order. Otherwise: the 400 answer and an unchanged cache |
| `Cache.AnalysisStore.Export` | app.py:52-58 | finds an analysis iff the upper-cased ticker is a key, and then returns exactly the stored analysis; reads only |
| `Cache.AnalysisStore.List` | app.py:39-50 | one summary per key in iteration order (ticker, stored time, recommendation, confidence); total = number of summaries = number of keys; reads only |
| `Cache.AnalysisStore.Health` | app.py:60-68 | status "healthy", version "1.0.0", and `cached_analyses` = number of keys = the listing total; reads only |
| `Cache.AnalyzeThenExport` | app.py:24-56 | analysing a ticker, then exporting any spelling of it with the same upper-case form, returns exactly the analysed result; afterwards the listing total equals the health count and the number of keys |

## Left out

- Flask routing, `jsonify`, CORS, `render_template` for `/`, the generic 404/500 error handlers and `app.run` are left out. They are HTTP plumbing over libraries that are not modelled.
- `random.uniform` and `random.randint` are left out. Their rounded results are the `Draws` parameter, constrained by `InRange` to the ranges they are drawn from.
- `intraday_high`, `intraday_low` and `volume` are left out. They are independent random values with no logic beyond their ranges.
- `datetime.now().isoformat()` is left out. Each timestamp is an opaque string parameter.
- The formatted message text of each signal is left out. A signal is its indicator plus a reading category (overbought, oversold, neutral, above, below), and the message's BUY/SELL suffix is the sign of the score.
- Generator.Generate does not apply the 2-decimal `round` to `price_change_percent` or `mid_level`. Both are kept exact, so they can differ from the source by up to half a hundredth. The float arithmetic of the source is not modelled.
- Signals.Volatility rounds half up on the exact quotient. Python's `round` works on a binary float and rounds half to even. The two can differ only when the exact volatility lies within float error of a half-hundredth.
- The 400 answer carries the text of the raised exception. The model returns `BadRequest` without that text.
- The `except` clause at app.py:36-37 is modelled only for failures in reading the body: a body that is not an object, or a ticker that is not a string. Generation itself cannot fail in the model.
- `str.upper` beyond ASCII is left out: Unicode case mappings, including ones that change the length.
- The fallbacks `.get('recommendation', 'N/A')` and `.get('confidence_percent', 0)` in the listing are left out. Every cached analysis has both fields, so the fallbacks cannot be reached.
- Concurrent requests and thread safety are left out. The source has no locking, and the model is sequential.
