# Bitcoin power-law widget: the valuation rule

This project models the valuation rule of the Bitcoin power-law home-screen
widget (`widget.js`). From the current time and the live BTC price, the widget
does the following:

- it computes the days since the genesis block;
- it computes the power-law fair value `10^(A + B·log10(days))`, with A = -17.01 and B = 5.82;
- it derives support (0.35 × fair) and resistance (3.5 × fair);
- it derives the deviation from fair value in percent;
- it classifies the price into one of five statuses (Deeply Undervalued, Undervalued,
  Fair Value, Above Fair, Overvalued);
- it computes a gauge position on a log scale between support and resistance, clamped to [0,1],
  which the layout never uses;
- it picks one of three display formats for dollar amounts.

Modules:

- `JsMath` (`js_math.dfy`) covers the JavaScript number behaviour the rule depends on.
  It models division by zero giving ±Infinity or NaN, and the NaN rules of
  `Math.min`/`Math.max`. It also names the properties of `Math.log10` and
  `Math.pow(10, _)` that the proofs assume.
- `PowerLaw` (`power_law.dfy`) holds the days since genesis and the fair value.
- `Valuation` (`valuation.dfy`) holds the band, the deviation, `getStatus`,
  `getGaugePosition`, and a single `Evaluate`. `Evaluate` gathers the inline
  computation that `createWidget` performs before it builds the layout.
- `PriceFormat` (`price_format.dfy`) holds the format choice in `formatPrice`.

Numbers are Dafny `real`s. `Math.log10` and `Math.pow(10, _)` are function
parameters (`log10`, `pow10`). Lemmas state what they assume about them:

- `log10` is strictly increasing on positive reals;
- `pow10` is positive and strictly increasing;
- `log10(pow10(e)) == e`.

The clock is a parameter, `nowMs`.

The status is a five-constructor datatype, ordered by `Rank`. Its label, emoji and
colour come from a separate lookup, `Display`. `getStatus` is specified by its
first-match rule: the rank is the index of the first threshold strictly above the
price. It is related to an independent reference, `CountAtOrBelow`, which counts
the thresholds at or below the price. Monotonicity and time-dependence are proved
through that count.

Two behaviours of the code at its edges are kept as written:

- A price exactly on a threshold goes to the dearer status, because every test
  in `getStatus` is a strict `<` (widget.js:43-46; `ThresholdGoesToDearerStatus`).
- When the log of support equals the log of resistance, the gauge divides by
  zero, and `Math.min`/`Math.max` turn the result into NaN, 1 or 0
  (widget.js:54; `GaugePosition`).

## Model

| member | source | states |
|---|---|---|
| `JsMath.Divide` | widget.js:54 | the gauge's division: finite exactly when the divisor is nonzero (and then it multiplies back to the numerator), +Infinity/-Infinity for a positive/negative numerator over zero, NaN for 0/0 |
| `JsMath.Min` | widget.js:54 | `Math.min(a, b)` is NaN exactly when an argument is NaN, and otherwise one of its arguments that is at most both |
| `JsMath.Max` | widget.js:54 | `Math.max(a, b)` is NaN exactly when an argument is NaN, and otherwise one of its arguments that is at least both |
| `JsMath.Clamp01` | widget.js:54 | `Math.max(0, Math.min(1, x))` is NaN exactly for NaN, else a number in [0,1]; values in [0,1] are kept, larger ones and +Infinity go to 1, smaller ones and -Infinity to 0 |
| `JsMath.ClampMonotone` | widget.js:54 | clamping preserves the order of any two numbers |
| `PowerLaw.DaysSinceGenesis` | widget.js:10-12 | elapsed days are positive exactly after the genesis instant, and converting them back to milliseconds returns the given time |
| `PowerLaw.DaysIncrease` | widget.js:10-12 | a later instant gives more elapsed days |
| `PowerLaw.PowerLawPrice` | widget.js:14-16 | for a positive number of days, the fair value is positive, since it is a power of ten, and `log10(fair) == A + B·log10(days)`: the model is a straight line in log-log space |
| `PowerLaw.PowerLawIncreasing` | widget.js:14-16 | with slope B = 5.82 > 0, the fair value strictly increases with the number of days |
| `PowerLaw.FairValueAt` | widget.js:59-60 | at any instant after genesis, the fair value computed from the clock is positive |
| `PowerLaw.FairValueRisesOverTime` | widget.js:59-60 | after genesis, the fair value strictly increases as time passes |
| `Valuation.Display` | widget.js:43-47 | the label, emoji and colour record of each status; colours are seven-character hex codes, and the green badge and green colour belong exactly to the two undervalued statuses |
| `Valuation.DisplayDistinguishesStatuses` | widget.js:42-48 | each status has its own label; only the two undervalued statuses share an emoji and colour; two statuses share a colour exactly when they share an emoji |
| `Valuation.BandOf` | widget.js:61-62 | resistance is always ten times support; for a positive fair value, support < 0.7·fair < fair < 1.3·fair < resistance |
| `Valuation.Deviation` | widget.js:63 | the deviation is positive, zero or negative exactly when the price is above, at or below fair value, and `fair·(1 + d/100)` gives the price back |
| `Valuation.DeviationStrictlyIncreasing` | widget.js:63 | for a fixed positive fair value, the deviation strictly increases with the price |
| `Valuation.GetStatus` | widget.js:42-48 | first match wins: every threshold before the chosen status is at or below the price, and the chosen status's own threshold (if any) is strictly above it; so the function is total and picks exactly one of five statuses |
| `Valuation.StatusRankIsCount` | widget.js:42-47 | with ascending thresholds, the status rank equals the number of thresholds at or below the price |
| `Valuation.StatusMonotone` | widget.js:43-47 | with ascending thresholds, the status rank never decreases as the price increases |
| `Valuation.ThresholdGoesToDearerStatus` | widget.js:43-46 | a price exactly on the i-th threshold (support, 0.7·fair, 1.3·fair, resistance) gets the status of rank i+1 |
| `Valuation.BandCutoffsAscending` | widget.js:61-62 | with multipliers 0.35 and 3.5 and a positive fair value, the four thresholds are strictly ascending |
| `Valuation.EveryStatusReachable` | widget.js:43-47 | for a positive fair value, each of the five statuses is reached by some positive price |
| `Valuation.GaugePosition` | widget.js:50-55 | the gauge is never an infinity; it is NaN exactly when the logs of price, support and resistance all coincide, and otherwise lies in [0,1] |
| `Valuation.GaugeDefined` | widget.js:50-54 | when 0 < support < resistance, the price is positive and log10 is increasing, the denominator is positive and the gauge is a number |
| `Valuation.GaugeEnds` | widget.js:50-54 | the gauge is 0 for prices at or below support and 1 for prices at or above resistance |
| `Valuation.GaugeIsLogPosition` | widget.js:50-54 | for support ≤ price ≤ resistance, the gauge is a number whose product with `log10(resist) - log10(support)` is `log10(price) - log10(support)`: the position on a log scale, not a linear one |
| `Valuation.GaugeMonotone` | widget.js:50-54 | the gauge never decreases as the price increases |
| `Valuation.Evaluate` | widget.js:60-65 | for a positive fair value: the band surrounds the fair value; the deviation's sign follows the price; each status holds exactly on its half-open price range [lower, upper); the gauge is in [0,1] or NaN |
| `Valuation.EvaluateGauge` | widget.js:61-65 | for a positive price, the widget's gauge is a number: 0 at or below 0.35·fair and 1 at or above 3.5·fair |
| `Valuation.ValuationAt` | widget.js:58-65 | the evaluation at an instant after genesis carries the price and a positive fair value |
| `Valuation.StatusCheapensOverTime` | widget.js:59-64 | for a fixed price, the status can only move to a cheaper one as time passes, because every threshold scales with the rising fair value |
| `Valuation.WorkedExamples` | widget.js:42-65 | against a fair value of 50000: 15000 is Deeply Undervalued (support 17500); 52000 is Fair Value with deviation 4; 200000 is Overvalued (resistance 175000) with the gauge at 1 |
| `PriceFormat.FormatOf` | widget.js:18-22 | "millions" exactly when price ≥ 1000000, "rounded and grouped" exactly when 1000 ≤ price < 1000000, "two decimals" exactly when price < 1000; the three cases are disjoint and cover every price |
| `PriceFormat.FormatMonotone` | widget.js:18-22 | a larger amount never gets a format meant for smaller amounts |
| `PriceFormat.ShownAmount` | widget.js:19-21 | in the millions format the amount shown is the price in millions (at least 1); otherwise it is the price itself |

## Left out

- Price retrieval is network I/O and is not modelled. This covers `fetchBTCPrice`, the CoinGecko request, the Coinbase fallback and the 24-hour change. The price is a parameter.
- The layout built by `createWidget` is UI construction and is not modelled. This covers stacks, fonts, colours, spacers, gauge segment widths, the marker pixel position and the tap URL. The sign and colour of the deviation label (widget.js:150-152) are not modelled either. The layout never uses the gauge position: widget.js:114 computes `markerPos` from it and nothing reads `markerPos`, and the bar at widget.js:116-136 is three segments of fixed width.
- The host glue (`Script.setWidget`, `presentSmall`, `Script.complete`, `config.runsInWidget`) is not modelled.
- The `Date.now()` clock read is not modelled. The time is the parameter `nowMs`.
- IEEE-754 rounding is not modelled. All arithmetic is exact over reals.
- The digits produced by `toFixed`, `Math.round` and `toLocaleString` are not modelled. Only the choice of format and the amount it starts from are modelled.
- `Math.log10` and `Math.pow(10, _)` are uninterpreted parameters. Their properties are hypotheses of the lemmas that need them.
- `Math.log10` of zero or of a negative number gives -Infinity or NaN in JavaScript. That is not represented: the `log10` parameter is constrained only on positive reals. So every member whose claim depends on a logarithm requires positive arguments: the gauge lemmas require a positive price, support and resistance; `PowerLawPrice` states its positivity and log-linearity only for positive days, and `PowerLawIncreasing` requires positive days; `FairValueAt`, `ValuationAt`, `FairValueRisesOverTime`, `StatusCheapensOverTime` require an instant after genesis. At genesis the source's fair value is 0, and before genesis it is NaN.
- `Valuation.Deviation`: requires a positive fair value. A zero fair value (division by zero in JavaScript) cannot arise, because the fair value is a power of ten.
- `Valuation.Evaluate`: requires a positive fair value, for the same reason.
- A second, cross-rate (gold-relative) valuation does not appear in `widget.js`, so it is not modelled.
