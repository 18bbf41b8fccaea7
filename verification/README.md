# Volatility gauge range engine

A Dafny model of the range logic behind the two horizontal volatility gauges
of the JS-Widgets repository. `gauge_realized_horizontal.js` shows realized
volatility. `gauge_forecast_horizontal.js` shows forecast volatility. Each
widget polls an API and moves a needle over a radial gauge. Both keep a mutable
display range `minValue`/`maxValue` (starting at 0 and 140). The range holds:

- five equal-width colour zones and eleven tick labels, derived from the range;
- a five-level classification of each reading ("Volatility is Very Low" …
  "Volatility is Very High"), with inclusive upper thresholds;
- a range update step: a reading below the range moves the lower bound to
  `floor(v * 0.8)`, and a reading above it moves the upper bound to
  `ceil(v * 1.2)`. For a non-negative reading this widens the range. For a
  negative reading it need not: see below.

The two files carry the same range logic line for line, so it is modelled once:

| file | module |
|---|---|
| `numeric.dfy` | `Numeric`: `Math.floor`, `Math.ceil`, `Math.round` and rounding to one decimal, on exact reals |
| `text.dfy` | `Text`: `indexOf`, `replace` with a string pattern, and the decimal rendering of an integer |
| `range_engine.dfy` | `RangeEngine`: zones, classification, the tick method and its specification, and the range update functions, with their lemmas |
| `gauge.dfy` | `Widget`: the class `Gauge` with the configured bounds, the gauge options, the needle and the text panels; `UpdateRange` and `FetchVolatility` |
| `widgets.dfy` | `Realized` and `Forecast`: each widget's URL builder and label lookups |

The shared members model both files. The `## Model` table cites the realized
file. These are the forecast file's matching lines:

| operation | realized | forecast |
|---|---|---|
| colour zones | 54-65 | 43-54 |
| classification | 68-83 | 57-72 |
| tick labels | 86-97 | 75-86 |
| range update | 1100-1113 | 884-897 |
| range update and description | 1139-1165 | 923-948 |
| failed fetch | 1173-1188 | 956-970 |

The code does not validate readings and has no reset: a negative reading goes
straight into the comparisons. Two lemmas show the consequences.
`RangeEngine.NegativeReadingEscapesRange`: such a reading can end up outside the
updated range. `RangeEngine.NegativeReadingCanNarrowRange`: the lower bound can
move up. From [0, 140] the readings -5, -12 and -11 give the lower bounds -4,
-10 and then -9.

## Model

| member | source | states |
|---|---|---|
| Numeric.Floor | gauge_realized_horizontal.js:1144 | The result is the greatest integer not above x. |
| Numeric.Ceil | gauge_realized_horizontal.js:1149 | The result is the least integer not below x. |
| Numeric.Round | gauge_realized_horizontal.js:93 | `Math.round` gives an integer within half a unit of x, a half going up. |
| Numeric.RoundTenth | gauge_realized_horizontal.js:93 | `Math.round(x*10)/10` has at most one decimal place and lies within 0.05 of x. Together these fix the result. |
| Numeric.RoundTenthMonotone | gauge_realized_horizontal.js:93 | Rounding to one decimal preserves order. |
| Numeric.RoundTenthOfWhole | gauge_realized_horizontal.js:93 | A whole number rounds to itself. |
| Text.IndexOf | gauge_realized_horizontal.js:17-18 | The result is the first index where the pattern occurs, or -1 exactly when it occurs nowhere. |
| Text.ReplaceFirst | gauge_realized_horizontal.js:17-18 | `replace` with a string pattern: with no occurrence the string is unchanged. Otherwise only the first occurrence is swapped for the replacement. |
| Text.ReplaceFirstAfter | gauge_realized_horizontal.js:17-18 | `replace` swaps only the first occurrence. When no earlier character can start the pattern, it swaps the occurrence after the brace-free prefix and keeps the rest. |
| Text.NatToString | gauge_realized_horizontal.js:40 | The rendering of a natural number is non-empty, all digits, and has no leading zero. |
| Text.NatToStringRoundTrip | gauge_realized_horizontal.js:40 | Reading back the decimal rendering of n gives n. |
| Text.IntToString | gauge_realized_horizontal.js:40 | The rendering starts with '-' exactly for negatives. The rest is a non-empty digit string with no leading zero that reads back as the absolute value. |
| RangeEngine.ColorZones | gauge_realized_horizontal.js:54-65 | There are exactly five zones. The first starts at min and the last ends at max. Each zone's end is the next zone's start. Every zone has width (max-min)/5. The colours run green to red. |
| RangeEngine.ZonesOrdered | gauge_realized_horizontal.js:54-65 | With min < max every zone is a proper interval, and zones do not overlap. |
| RangeEngine.ZonesCoverRange | gauge_realized_horizontal.js:54-65 | Every point of [min, max] lies in some zone. |
| RangeEngine.Classify | gauge_realized_horizontal.js:68-83 | The level's rank r is the zone the reading falls in. The reading is at most boundary r+1 (VeryHigh excepted) and above boundary r (VeryLow excepted). |
| RangeEngine.ClassifyMatchesZone | gauge_realized_horizontal.js:68-83 | The level's zone holds the reading. The reading is at most the zone's end (VeryHigh excepted) and above its start (VeryLow excepted). |
| RangeEngine.ClassifyMonotone | gauge_realized_horizontal.js:68-83 | With min <= max, a higher reading never gets a lower level. |
| RangeEngine.AtOrBelowFirstBoundaryIsVeryLow | gauge_realized_horizontal.js:71-73 | A reading up to min+(max-min)/5 is VeryLow. This includes any reading below min. |
| RangeEngine.BoundaryTakesLowerLevel | gauge_realized_horizontal.js:71-79 | A reading exactly on boundary k (1..4) gets level k-1. |
| RangeEngine.AtOrAboveMaxIsVeryHigh | gauge_realized_horizontal.js:80-82 | With min < max, max itself and anything above it are VeryHigh. |
| RangeEngine.Ticks | gauge_realized_horizontal.js:86-97 | The specification of the labels: exactly numTicks of them, entry i being min + i*step rounded half-up to one decimal. TicksNearExactPositions pins each value (one decimal place, within 0.05 of its exact position). TicksNonDecreasing and TicksEndpoints give order and ends. |
| RangeEngine.GenerateMajorTicks | gauge_realized_horizontal.js:86-97 | The push loop builds exactly the specified labels. Entry i is min + i*(max-min)/(n-1), rounded half-up to one decimal. |
| RangeEngine.TicksNearExactPositions | gauge_realized_horizontal.js:91-94 | Each label has at most one decimal place and lies within 0.05 of its exact, evenly spaced position. Together these fix its value. |
| RangeEngine.TicksNonDecreasing | gauge_realized_horizontal.js:86-97 | With min <= max the labels never decrease. |
| RangeEngine.TicksEndpoints | gauge_realized_horizontal.js:86-97 | For whole-number bounds the first label is min and the last is max. |
| RangeEngine.NextMin | gauge_realized_horizontal.js:1143-1146 | An in-range reading keeps min. Any reading below min gives a whole lower bound. For a reading in [0, min) that bound is at or below the reading, strictly below it when positive. |
| RangeEngine.NextMax | gauge_realized_horizontal.js:1148-1151 | A reading at or below max keeps max. Any reading above max gives a whole upper bound. For a non-negative reading that bound is at or above the reading, strictly above it when positive. |
| RangeEngine.WideningContainsReading | gauge_realized_horizontal.js:1139-1151 | For a reading v >= 0 the range never shrinks and then holds v. |
| RangeEngine.RangeChangesIffOutside | gauge_realized_horizontal.js:1139-1155 | For v >= 0 the bounds change exactly when v is outside [min, max]. |
| RangeEngine.AtMostOneBoundMoves | gauge_realized_horizontal.js:1139-1151 | With min <= max a reading of any sign moves at most one bound. |
| RangeEngine.RangeUpdateIdempotent | gauge_realized_horizontal.js:1139-1151 | Feeding the same reading (any reading) a second time leaves the bounds unchanged. |
| RangeEngine.NegativeReadingEscapesRange | gauge_realized_horizontal.js:1143-1146 | Readings are not validated. A reading v <= -5 below min gets a new min above v, so v stays outside the range. |
| RangeEngine.NegativeReadingCanNarrowRange | gauge_realized_horizontal.js:1143-1146 | A reading below min with min + 1 <= 0.8v moves the lower bound up, narrowing the range. |
| Widget.Gauge.constructor | gauge_realized_horizontal.js:121-148 | At page load the bounds are 0 and 140 and ticks and zones come from them. The needle is at 0, no value is shown, and the description reads "Awaiting data". |
| Widget.Gauge.UpdateRange | gauge_realized_horizontal.js:1100-1113 | The config and the gauge options get the same bounds. Ticks and zones are regenerated from those bounds. Needle and text are untouched. |
| Widget.Gauge.FetchVolatility | gauge_realized_horizontal.js:1116-1189 | On failure the bounds, ticks and zones are unchanged, the needle goes to 0, and the description reads "Data unavailable". On a reading the bounds become NextMin/NextMax, and the update flag is set iff the reading is outside. The needle moves to the reading, and the description classifies it against the new bounds. For v >= 0 the range widens to hold v. The reachable-state invariant is kept. |
| Widget.ValidGaugeShowsItsRange | gauge_realized_horizontal.js:1100-1107 | In every reachable state min < max. There are 11 non-decreasing labels from exactly min to exactly max, and five ordered zones from min to max. |
| Realized.CurrentUrl | gauge_realized_horizontal.js:16-19 | For a template ending in `{CRYPTO}/{HOURS}` with no brace before it, and a brace-free asset, the URL is that prefix + crypto + "/" + hours. |
| Realized.DefaultUrlShape | gauge_realized_horizontal.js:16-19 | With the configured template the URL is prefix + crypto + "/" + hours. |
| Realized.HoursDisplayText | gauge_realized_horizontal.js:33-41 | An unlisted window shows as its number followed by " Hours". The number has a '-' exactly for negatives; its digits, for any window, have no leading zero and read back as the window's absolute value. |
| Realized.HoursLabelsMatchSelector | gauge_realized_horizontal.js:33-41 | The four listed windows (1, 24, 168, 720) get exactly the selector's option texts. |
| Realized.MetricDisplayText | gauge_realized_horizontal.js:44-51 | An unknown metric key is shown as the key itself. A known key is always translated. |
| Realized.MetricLabelsMatchSelector | gauge_realized_horizontal.js:44-51 | The three metric keys get exactly the selector's option texts. |
| Forecast.CurrentUrl | gauge_forecast_horizontal.js:15-18 | For a template ending in `{CRYPTO}/` with no brace before it, the URL is that prefix + crypto + "/" + period, for any asset. |
| Forecast.DefaultUrlShape | gauge_forecast_horizontal.js:15-18 | With the configured template the URL is prefix + crypto + "/" + period, for any crypto. |
| Forecast.PeriodDisplayText | gauge_forecast_horizontal.js:32-40 | An unlisted horizon shows as its number followed by " Days". The number has a '-' exactly for negatives; its digits, for any horizon, have no leading zero and read back as the horizon's absolute value. |
| Forecast.PeriodLabelsMatchSelector | gauge_forecast_horizontal.js:32-40 | Horizons 0, 1, 7 and 30 show "1 Hour", "1 Day", "7 Days" and "30 Days", as the selector does. |

## Left out

- DOM construction, styling, the logo and its placeholder, and the selector widgets are UI only.
- The gauge library calls (`new RadialGauge`, `draw`, `update`, the title redraw) are left out. The library's API is not part of this model. Its options are modelled as plain fields of `Widget.Gauge`.
- HTTP and JSON (`fetch`, `response.ok`, `response.json()`) are I/O. A poll arrives as `Widget.Fetch`: a value or a failure. Reading the metric out of the body is part of this layer: `data.metrics[selectedMetric]` in the realized widget and `data.metrics.volatility` in the forecast widget. A missing key (`undefined`) has no counterpart in the model.
- Timers (`setInterval`, `clearInterval`, `setTimeout`) and the re-arming after a selection change are event-loop scheduling.
- The loading state (needle at the midpoint, "Loading data...", `isLoading`) and console logging are left out. They only choose what is displayed in the meantime.
- Timestamp display and number formatting (`toLocaleTimeString`, `toFixed(2)`) depend on the host locale. The conversion of tick labels to strings (`ticks.map(String)`) is left out too; labels are modelled as reals.
- Arithmetic is exact real arithmetic, not IEEE-754. Double rounding of `v*0.8` or `v*1.2`, NaN and infinities are not modelled.
- RangeEngine.GenerateMajorTicks: requires numTicks != 1. In the source a single tick divides by zero and yields NaN. Every caller uses the default of 11.
- Text.ReplaceFirst: `$` patterns in the replacement string are not interpreted. The asset names offered contain none.
- Realized.MetricDisplayText: keys inherited by every JavaScript object (such as `toString`) are not looked up. Only the three table entries are known.
