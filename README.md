# Crypto signal analyzer: verified model of the decision logic

This project is a Dafny model of the part of the crypto-analyzer repository that carries meaning: the trading-signal evaluation. It has two halves.

- **Backend decision rules** (`backend/main.py`, module `Analyzer` in `analyzer.dfy`):
  - the classic floor-trader pivot points;
  - the fallback to the spot price when high, low or close is missing;
  - the confirmation table of RSI, MACD, pivot, Bollinger Bands, PSAR and Stoch RSI votes;
  - the long and short percentages, which leave out the pivot row;
  - the final BUY/SELL/HOLD rule;
  - stop-loss and take-profit selection, with its distance window, buffer fallback and ordering correction;
  - the risk-reward ratio, gain and loss.
- **Frontend evaluator** (`src/App.js`, module `App` in `app.dfy`):
  - the total flag normaliser `toBoolean`;
  - the direction, which is the upper-cased `final_signal`;
  - the confirmation percentages, which also leave out the pivot key;
  - the projected gain and loss;
  - the risk-reward ratio.

All numbers are exact `real`s. Every sentinel of the source is a datatype constructor:
- `"-"` becomes `Percent.Dash` and `Ratio.NoRatio`;
- `null` becomes `Option.None`;
- Python's `None` becomes `Option.None`.

Two more modules sit beside these. `Trade` (`trade.dfy`) defines the price move in favour of a long or short position and the profit of a notional amount. That is the reference the gain, loss and ratio formulas of both programs are proved against. `Pipeline` (`pipeline.dfy`) evaluates the frontend on the record the backend returns. It proves that the percentages agree. It proves that on a well-formed bar the gain, loss and ratio agree for BUY and SELL. For HOLD the backend has no figures, while the frontend shows a gain and loss of 0 and no ratio.

Where the imperative code reassigns variables, it is a method proved equal to a specification function. This covers the counting loop of `calculateConfirmationsPercent`, the `let gain = 0` reassignments of `calculateGainLoss`, the sl/tp branch chain with its correction, and the `rr`/`gain`/`loss` block. The properties are proved about the specification functions.

Modelling choices that follow the code:
- **The pivot key is left out of both counts and of the denominator.** This holds in both programs (src/App.js:37 and backend/main.py:106). The rendered checklist lists every key, but it is UI and left out.
- **JavaScript truthiness.** `entry`, `sl` and `tp` must be present and nonzero. `amount` only has to be non-empty: an amount of `"0"` is a truthy string and yields gain and loss of 0.
- **An undetermined direction yields gain and loss of 0, not "unavailable".** This is what the code does.
- **The confirmations object is a sequence of `(name, buy, sell)` entries in `Object.keys` order.** A flag that is missing, and both flags of an entry that is not an object, read as `JsUndefined`.
- **A zero close in the backend.** A zero spot price can reach the gain/loss formulas through the fallback. For BUY or SELL those formulas then divide by zero. Python raises `ZeroDivisionError`, and the blanket `except` turns it into an error response. This is `AnalyzeError.FloatDivisionByZero`.

## Model

| member | source | states |
|---|---|---|
| `App.ToBoolean` | src/App.js:4-9 | the flag normaliser is total; only booleans, strings and numbers can be true, and a true string has the length of "yes" or "true" |
| `App.ToBooleanOnStrings` | src/App.js:4-9 | a string flag is true exactly when it spells "true" or "yes" in any mix of upper and lower case |
| `App.ToBooleanTable` | src/App.js:4-9 | booleans pass through, numbers are true iff nonzero, null/undefined/objects are false, the normaliser is idempotent, and the table's sample values |
| `App.Direction` | src/App.js:32 | a direction exists exactly when there is a record with a final signal; it has the signal's length and no lower-case letter |
| `App.DirectionMatchesAnyCase` | src/App.js:32 | a signal resolves to "BUY" exactly when it spells "buy" in any mix of cases, and to "SELL" exactly when it spells "sell" |
| `App.LongPercent` | src/App.js:35-51 | a long percentage is shown only for a record with confirmations; it is non-negative and equals 100 × buy count / counted entries |
| `App.ShortPercent` | src/App.js:35-51 | a short percentage is shown only for a record with confirmations; it is non-negative and equals 100 × sell count / counted entries |
| `App.CalculateConfirmationsPercent` | src/App.js:34-54 | the counting loop returns the long and short percentages over the non-pivot entries ("-" when none) |
| `App.CountsWithinTotal` | src/App.js:39-48 | the long and short counts never exceed the number of counted entries |
| `App.PercentsInRange` | src/App.js:50-51 | every percentage that is not "-" lies in [0, 100] |
| `App.DashIffNothingCounted` | src/App.js:35-51 | both percentages are "-" exactly when there is no record, no confirmations, or every key is the pivot key (an empty mapping included) |
| `App.PivotNeverCounts` | src/App.js:37 | an entry under the pivot key, anywhere in the mapping, changes neither the counts nor the denominator |
| `App.LongIgnoresSellFlags` | src/App.js:43-51 | the long percentage depends only on the keys and the normalised buy flags |
| `App.ShortIgnoresBuyFlags` | src/App.js:43-51 | the short percentage depends only on the keys and the normalised sell flags |
| `App.GainLossOf` | src/App.js:56-76 | figures exist exactly when entry, sl and tp are truthy and an amount is given (so entry is nonzero); any other direction gives 0 and 0; for BUY/SELL gain × entry = amount × move to tp and loss × entry = −(amount × move to sl) |
| `App.CalculateGainLoss` | src/App.js:56-76 | null unless entry, sl and tp are truthy and an amount is given; otherwise gain is the position's profit at the take-profit and loss the negated profit at the stop-loss, or 0 and 0 for any other direction |
| `App.GainLossNeedsAllInputs` | src/App.js:57 | a missing record or amount, or an entry, sl or tp of 0, gives null, so a zero entry is never divided by |
| `App.SellNegatesBuy` | src/App.js:64-73 | on the same inputs SELL's gain and loss are exactly the negation of BUY's, and any other signal gives 0 and 0 |
| `App.CalculateRR` | src/App.js:78-98 | a ratio exists exactly when the levels are truthy, the direction is BUY or SELL and the risk is positive; it is then reward over risk |
| `App.RatioIsGainOverLoss` | src/App.js:56-98 | with a nonzero amount the ratio equals the projected gain over the projected loss |
| `App.DirectionIgnoresCase` | src/App.js:32 | signals with the same upper-case form give the same gain, loss and ratio |
| `App.LowerCaseBuyIsBuy` | src/App.js:32 | "buy" resolves to the direction "BUY" and gives the same gain, loss and ratio |
| `App.WorkedExample` | src/App.js:56-98 | entry 100, sl 90, tp 120, amount 1000: BUY gives 200/100 and ratio 2, SELL gives -200/-100 and no ratio |
| `Trade.ShortMirrorsLong` | src/App.js:67-73 | a short position's move and profit are the negation of a long position's |
| `Trade.PnlBackendForm` | backend/main.py:169-175 | the backend's `(tp - close) * amount / close` forms are the position profit and the negated profit at the stop |
| `Analyzer.CalculatePivotPoints` | backend/main.py:20-32 | R1 − S1 equals the bar range; R2 and S2 lie one bar range either side of the pivot; the pivot lies within a bar that contains its close |
| `Analyzer.PivotLevelsOrdered` | backend/main.py:20-32 | for low ≤ close ≤ high, S2 ≤ S1 ≤ pivot ≤ R1 ≤ R2 |
| `Analyzer.PriceBar` | backend/main.py:50-57 | the readings are kept unless one of high, low or close is 0; then the bar is the spot price with a 1% band either side |
| `Analyzer.FallbackBarIsSane` | backend/main.py:54-57 | the fallback bar of a positive price has 0 < low ≤ close ≤ high |
| `Analyzer.Confirmations` | backend/main.py:79-104 | six rows; the pivot row votes both ways; RSI, MACD, PSAR and Stoch RSI never vote both ways; Bollinger Bands never do while the lower band is not above the upper |
| `Analyzer.CountedKeys` | backend/main.py:106 | the counted rows are rows of the table, none of them the pivot row, and no more than the table has |
| `Analyzer.CountedKeysKeepNonPivot` | backend/main.py:106 | a row of the table is counted exactly when it is not the pivot row |
| `Analyzer.CountedKeysKeepOrder` | backend/main.py:106 | the filter keeps order: the counted rows of a concatenation are those of the first part followed by those of the second |
| `Analyzer.LongTrueCount` | backend/main.py:108 | the long sum is at most the number of counted rows; it is 0 exactly when no row votes long and full exactly when every row does |
| `Analyzer.ShortTrueCount` | backend/main.py:109 | the short sum is at most the number of counted rows; it is 0 exactly when no row votes short and full exactly when every row does |
| `Analyzer.Percentage` | backend/main.py:110-113 | 0 for no counted rows; otherwise percentage × total = count × 100, and it lies in [0, 100] when count ≤ total |
| `Analyzer.TwentyPerVote` | backend/main.py:106-113 | five rows are counted, so each percentage is 20 per agreeing row and lies in [0, 100] |
| `Analyzer.FinalSignal` | backend/main.py:115-120 | BUY exactly when the long percentage leads and reaches 50, SELL exactly when the short one does; HOLD otherwise, where both are below 50 or they are equal |
| `Analyzer.SignalByVoteCount` | backend/main.py:115-120 | on five rows, BUY iff more long than short votes and at least 3 long; SELL the mirror image |
| `Analyzer.StopLevels` | backend/main.py:125-161 | the levels are the pivot candidates or the buffer levels; for a positive close a BUY ends with tp > sl and a SELL with tp < sl |
| `Analyzer.SelectStops` | backend/main.py:125-161 | the branch chain and the correction step compute exactly StopLevels |
| `Analyzer.PivotStopsKeptIffInWindow` | backend/main.py:140-154 | for BUY or SELL on a bar with high > low, the pivot levels are kept when the range is within 5%–50% of the close, and the buffer levels are used otherwise |
| `Analyzer.HoldUsesBuyLevels` | backend/main.py:136-161 | HOLD takes the BUY-style pivot levels inside the window and the BUY-style buffers outside it, with no correction |
| `Analyzer.FallbackUsesBuffers` | backend/main.py:125-154 | when the provider lacked high, low or close, the fallback band is narrower than the window, so the buffer levels are always used |
| `Analyzer.StopsBracketClose` | backend/main.py:125-161 | on a sane bar a BUY has 0 < sl < close < tp, a SELL 0 < tp < close < sl, and HOLD's levels are positive |
| `Analyzer.MetricsOf` | backend/main.py:163-175 | failure (division by zero) exactly for BUY/SELL with a zero close; rr is None exactly for HOLD or sl == close; gain and loss are None exactly for HOLD |
| `Analyzer.ComputeMetrics` | backend/main.py:163-175 | the rr/gain/loss assignments compute MetricsOf: rr is reward over risk measured from close, gain and loss the position profit at tp and the negated profit at sl |
| `Analyzer.BracketedMetrics` | backend/main.py:163-175 | with levels on the proper sides of a positive close, rr exists and is positive, and gain and loss are non-negative for a non-negative amount |
| `Analyzer.SaneBarRatioPositive` | backend/main.py:125-175 | a BUY or SELL on a sane bar always has a positive ratio |
| `Analyzer.Analysis` | backend/main.py:46-206 | on success the entry is the bar's close, the table has six rows, both percentages lie in [0, 100], and gain and loss are reported exactly when the signal is not HOLD |
| `Analyzer.Analyze` | backend/main.py:46-206 | the body of analyze after the readings are fetched computes the Analysis report |
| `Analyzer.AnalysisFailsOnlyOnZeroClose` | backend/main.py:163-209 | the pure part fails only when the close is 0 and the signal is BUY or SELL |
| `Pipeline.SignalResolvesToSameSide` | src/App.js:32 | the frontend resolves each backend signal string to the backend's own position side |
| `Pipeline.PercentsAgree` | src/App.js:34-54 | on the backend's confirmation table the frontend's percentages equal the backend's long and short percentages |
| `Pipeline.FiguresAgreeOnLevels` | src/App.js:56-98 | on levels bracketing the entry, the frontend's gain, loss and ratio equal the backend's for BUY/SELL, and are 0, 0 and "-" for HOLD |
| `Pipeline.RiskFiguresAgree` | src/App.js:56-98 | on a sane bar the backend never fails, and the frontend reproduces its gain, loss and ratio for BUY and SELL |

## Left out

- React state, the `handleSubmit` POST and all JSX rendering are left out as UI and I/O. This includes the per-indicator checklist (src/App.js:104-132), which lists every key including the pivot key, the R:R < 1 warning (src/App.js:170) and the display of `data.error`.
- The FastAPI app, the CORS middleware and the `AnalyzeRequest` model are left out as I/O.
- The `TA_Handler` calls are network access. The readings and the spot price are parameters. The model takes a price even where the source would not ask for one.
- The blanket `except` (backend/main.py:208-209) is modelled only for the division by a zero close. Provider failures are out of scope. So is a reading the provider reports as null, which makes `float()` raise.
- `toFixed` and `round` are float-to-string and float rounding, so the model uses unrounded values. With five counted rows the backend's percentages are multiples of 20, so one-decimal rounding does not change them. The Pipeline lemmas evaluate the frontend on the unrounded levels; in practice it reads levels rounded to 4 decimals. For a close below 0.00005 the backend's `round(close, 4)` is 0, so the frontend shows no gain, loss or ratio while the backend reports them: the agreement `Pipeline.RiskFiguresAgree` proves does not carry over to such prices.
- IEEE-754 behaviour is left out: `parseFloat` of strings, NaN and infinities. Inputs are parsed reals, with `Option` for absence.
- `App.ToUpper`, `App.ToLower`: these map ASCII letters only. JavaScript's full Unicode mapping is not modelled: for example, U+017F (long s) upper-cases to `S`, so `"ſell"` reads as `"SELL"` in the source. No non-ASCII character lower-cases to a letter of "true" or "yes", so `toBoolean` is unaffected.
- The preliminary `direction` (backend/main.py:72-77) is computed but never used.
- Response fields that only echo inputs or readings are left out (`symbol`, `amount`, `rsi`, `macd`, `bollinger_bands`, `psar`, `stoch_rsi`). `Report` keeps the fields the decision rules produce.
