# Project profit-margin alert dashboard — a verified model

The dashboard lists construction projects by margin risk, shows the newest
unhandled margin alert with the money at stake, computes three KPIs, draws a
trend chart of a project's weekly forecast margin, and lets a user assign a
project manager (PM) to an alert. This project models the logic under that
screen in Dafny and proves what it promises:

- `JsRuntime` — the JavaScript built-ins the code leans on, with their exact
  semantics: `Math.round` (ties go up), `Math.ceil`, `Math.min`/`Math.max`
  over a spread, `find`/`findIndex`, the stable `Array.prototype.sort`,
  `slice(0, n)` including a negative `n`, `String.prototype.trim` and
  `String(n)` for whole numbers below 10^21 (from there JavaScript switches
  to exponent form, which is not modelled).
- `Risk` — the three-tier classifier: red below 12 %, yellow below 18 %,
  green from 18 % up, and the sort order red, yellow, green.
- `Data` — project and alert records, the shipped mock table `DB`, the
  read-only queries (risk-sorted list, top N, lookups, newest pending alert,
  "is this project assigned"), and the store class whose one mutation,
  `assignAlert`, turns a pending alert into an assigned one in place.
- `Metrics` — the two averaged KPIs rounded to one decimal, the high-risk
  count, and the loss estimate from a project's margin shortfall.
- `Money` — which unit band `formatMoney` picks and the number it shows.
- `TrendChart` — the chart scale: the y range snapped to multiples of 5 with
  5 to spare on each side, the linear maps from week and value to canvas
  coordinates, and the gridline and week-label loops.
- `KpiCard` — the forecast KPI's colour, written inline in `renderKPI`,
  proved to agree with the classifier.
- `AssignModal` — the assign-PM dialog: the alert being assigned, the form,
  the toast, and the submit handler that checks the PM, then the deadline,
  and only then calls the store.

The queries take the store's current tables as values. The store is a class
with `projects` and `alerts` fields, and only `AssignAlert` changes them
(and only `alerts`). The dialog is a class over the store that calls it.

Margins and coordinates are Dafny `real`s: every quantity involved is a
finite decimal or an exact ratio, so the model computes exactly what the
JavaScript computes up to floating-point rounding. Contract amounts are
integers. `createdAt`, an ISO local time in the table, is an integer
`YYYYMMDDhhmm`, which orders the same way.

The sort in `getProjects` is proved to be exactly the table's red projects,
then its yellow ones, then its green ones, each in table order (a
permutation, ordered, and stable). The newest-pending query is proved to
return `null` exactly when nothing is pending and otherwise a pending alert
no older than any other pending one.

Facts about the code the model records:

- The loss for P001 is 641,868 (5,835,168 × 11 / 100 = 641,868.48);
  `Metrics.ShippedLossOfP001` proves it.
- The code has no null guards: the averages divide by zero on an empty
  table (data.js:238), `xPos` computes 0/0 for a one-week trend
  (app.js:268), and `formatMoney(null)` throws a TypeError at
  `null.toLocaleString()` (data.js:268). The model makes the first two
  preconditions (a non-empty table, at least two weeks) and gives
  `formatMoney` an integer amount, so null cannot be passed.
- `Math.round` sends ties toward +∞.

## Model

| member | source | states |
|---|---|---|
| JsRuntime.Round | data.js:238 | `Math.round`: the integer within half of x, ties going up |
| JsRuntime.RoundMonotone | data.js:257 | rounding never reverses the order of two values |
| JsRuntime.Ceil | app.js:266 | `Math.ceil`: the least integer not below x |
| JsRuntime.MinOf | app.js:265 | `Math.min(...values)` is one of the values and no larger than any |
| JsRuntime.MaxOf | app.js:266 | `Math.max(...values)` is one of the values and no smaller than any |
| JsRuntime.FirstIndex | data.js:215-216 | the first position satisfying the predicate, none exactly when no element does |
| JsRuntime.Find | data.js:195 | `find(...) \|\| null`: the first element satisfying the predicate, null exactly when none does |
| JsRuntime.InsertByKey | data.js:183-185 | one insertion step of the stable sort adds exactly the new element |
| JsRuntime.InsertSorted | data.js:183-185 | inserting into a list sorted by key keeps it sorted |
| JsRuntime.SortByKey | data.js:183-185 | the sort returns a permutation of its input, sorted by key |
| JsRuntime.InsertBetween | data.js:183-185 | an element whose key lies between two runs lands after every equal key: stability |
| JsRuntime.SlicePrefix | data.js:190 | `slice(0, n)`: a prefix of length min(n, len), or len+n for a negative n, floored at 0 |
| JsRuntime.TrimStart | app.js:357 | drops exactly the leading JavaScript whitespace |
| JsRuntime.TrimEnd | app.js:357 | drops exactly the trailing JavaScript whitespace |
| JsRuntime.Trim | app.js:357 | `trim()`: a slice of the input with only whitespace outside it and none at its ends |
| JsRuntime.TrimEmpty | app.js:357 | a note trims to empty exactly when it is all whitespace |
| JsRuntime.TrimIdempotent | app.js:357 | trimming a trimmed note changes nothing |
| JsRuntime.NatToString | data.js:266 | `String(n)`: non-empty decimal digits without a leading zero |
| JsRuntime.NatToStringValue | data.js:266 | the digits of `String(n)` read back as n |
| JsRuntime.IntToString | data.js:266 | `String(n)` starts with a minus sign iff n is negative; the digits after it read back as \|n\| |
| Risk.GetRiskLevel | data.js:170-174 | red iff below 12, yellow iff 12 up to 18, green iff 18 or more |
| Risk.Order | data.js:182 | the sort rank: red is 0, green is 2, yellow in between |
| Risk.RiskLevelMonotone | data.js:170-174 | a larger margin is never a more severe tier |
| Risk.SameLevelIffSameBand | data.js:170-174 | two margins share a tier iff they lie on the same side of both thresholds |
| Data.ProjectRank | data.js:182-184 | the sort key is 0, 1 or 2: 0 iff the forecast is below 12, 2 iff it is 18 or more |
| Data.Grouped | data.js:181-186 | the reference order of the risk sort: the red, yellow and green groups one after another, so the ranks never decrease |
| Data.OfLevel | data.js:183-185 | the projects of one tier, in table order, all of that tier |
| Data.RiskSortIsGrouped | data.js:181-186 | the stable risk sort is red projects, then yellow, then green, each in table order |
| Data.SortedTableIsGrouped | data.js:181-186 | a table already in tier order comes back from the risk sort unchanged |
| Data.GetProjects | data.js:181-186 | `getProjects`: a permutation of the table, ordered by tier, grouped stably |
| Data.GetTopRiskProjects | data.js:189-191 | the first min(n, len) of the sorted list; nothing left out is more severe than what is kept |
| Data.GetProjectById | data.js:194-196 | the first project of the table with the id, null exactly when no project has it |
| Data.GetAlertProject | data.js:209-211 | the first project of the table with the id the alert names, null exactly when none matches |
| Data.NewestFirst | data.js:200 | the sort key of `getAlerts`; its contract is the newest-first order stated by Data.GetAlerts |
| Data.GetAlerts | data.js:199-201 | a permutation of the alerts, newest first |
| Data.LatestPendingIsNewest | data.js:204-206 | the first pending alert of the newest-first list is the newest pending alert |
| Data.GetLatestPendingAlert | data.js:204-206 | null iff nothing is pending; else a pending alert of the table at least as new as every pending one |
| Data.IsProjectAssigned | data.js:225-227 | true iff some alert of the project is assigned |
| Data.GetAlertByProjectId | data.js:230-232 | the first alert raised on the project, null exactly when none is |
| Data.AlertIndex | data.js:215-216 | the position of the first alert with the id, none exactly when no alert has it |
| Data.NoteText | data.js:220 | `note \|\| ''`: a missing note is stored as the empty string |
| Data.MarkAssigned | data.js:217-220 | the alert becomes assigned with the PM, deadline and note set, its identity fields kept |
| Data.AssignAt | data.js:214-222 | only the alert at the found position changes, and only its assignment fields |
| Data.AssignMarksProjectAssigned | data.js:214-227 | after an assignment the alert's project counts as assigned |
| Data.AssignIsPermanent | data.js:214-227 | no assigned alert goes back to pending; an assigned project stays assigned |
| Data.AssignRetiresFromLatestPending | data.js:204-222 | once assigned, an alert is never again the newest pending alert |
| Data.AssignKeepsInvariant | data.js:214-222 | assignment keeps every alert's assignment fields all-or-nothing and the ids unique |
| Data.Store.constructor | data.js:11-165 | the store starts with the shipped tables, which satisfy the invariant |
| Data.Store.AssignAlert | data.js:214-222 | false and nothing changed for an unknown id; else true, the first alert with the id assigned, nothing else changed |
| Data.ShippedStoreIsValid | data.js:133-164 | the shipped alerts are all pending with no assignment fields, under distinct ids |
| Data.ShippedQueries | data.js:181-191 | the shipped table (two red, two yellow, two green projects) is already in risk order, so the top five are P001 to P005 |
| Data.ShippedLatestAlert | data.js:204-206 | the shipped newest pending alert is A001 |
| Metrics.RoundToTenth | data.js:238 | `Math.round(x * 10) / 10` is within 0.05 of x and has one decimal |
| Metrics.GetAvgForecastMargin | data.js:235-239 | within 0.05 of the exact mean forecast, with one decimal |
| Metrics.GetAvgTargetMargin | data.js:242-246 | within 0.05 of the exact mean target, with one decimal |
| Metrics.SumOf | data.js:237 | the `reduce` sum; its contract is the bounds stated by Metrics.SumBounds |
| Metrics.SumBounds | data.js:237 | a sum of n values in [lo, hi] lies in [n·lo, n·hi] |
| Metrics.MeanBounds | data.js:238 | the mean of values in [lo, hi] lies in [lo, hi] |
| Metrics.AvgForecastWithinRange | data.js:235-239 | the forecast KPI is within 0.05 of the range of the forecasts |
| Metrics.RedCount | data.js:249-251 | the red group has one entry per red position of the table |
| Metrics.GetHighRiskCount | data.js:249-251 | the number of projects forecast below 12 |
| Metrics.EstimateLoss | data.js:254-258 | 0 when the forecast meets the target; else the shortfall rounded to a whole unit; never negative for a non-negative contract |
| Metrics.LossGrowsWithGap | data.js:254-258 | a lower forecast on the same contract never estimates a smaller loss |
| Metrics.ShippedLossOfP001 | data.js:254-258 | the loss shown for P001 is 641868 |
| Metrics.ShippedKpis | data.js:235-251 | the shipped KPIs are 15.0, 19.7 and 2 |
| Money.FormatMoney | data.js:261-269 | exactly one band: 千萬 from 10,000,000, 萬 from 10,000 with the count within 5,000 of the amount, else the amount itself |
| Money.TenThousandsText | data.js:266 | the 萬 text ends in the unit after a space |
| Money.TenThousandsTextValue | data.js:266 | the digits in front of the unit read back as the count |
| Money.FormatMoneyExamples | data.js:261-269 | 5835168 shows as "584 萬", 53700 as "5 萬", 10,000,000 as 1.0 千萬, 9999 as itself |
| TrendChart.CanvasWidth | app.js:257 | a zero client width falls back to 320; any other is kept |
| TrendChart.YMin | app.js:265 | a multiple of 5 at least 5 and less than 10 below the smallest value |
| TrendChart.YMax | app.js:266 | a multiple of 5 at least 5 and less than 10 above the largest value |
| TrendChart.MakeScale | app.js:264-266 | the range holds every sample and the target with 5 to spare on each side, so it is at least 10 wide and `yPos` never divides by zero |
| TrendChart.XPos | app.js:268 | week 0 is at the left padding and the last week at the plot's right edge; order and bounds are proved in TrendChart.XPosIncreasing and TrendChart.XPosInside |
| TrendChart.XPosEnds | app.js:268 | the first week is at the left padding, the last at the plot's right edge |
| TrendChart.XPosIncreasing | app.js:268 | with at least two weeks and a positive plot width, a later week is strictly further right |
| TrendChart.XPosInside | app.js:268 | every week lies within the plot's horizontal extent |
| TrendChart.YPos | app.js:269 | the axis minimum is drawn at the plot bottom and the maximum at the top; order and bounds are proved in TrendChart.YPosDecreasing and TrendChart.YPosInside |
| TrendChart.YPosEnds | app.js:269 | the axis minimum maps to the plot bottom and the maximum to the plot top |
| TrendChart.YPosDecreasing | app.js:269 | a larger value is drawn strictly higher |
| TrendChart.YPosInside | app.js:269 | a value on the axis range is drawn within the plot, strictly inside off the ends |
| TrendChart.TrendFitsPlot | app.js:264-269 | every sample and the target line are drawn strictly inside the plot vertically; with two or more weeks and a non-negative plot width, every week is inside it horizontally |
| TrendChart.YAxisGridLines | app.js:279-285 | (yMax − yMin)/5 + 1 gridlines, at yMin, yMin+5, …, each at its value's y, inside the plot, rising |
| TrendChart.GridLinesAreMultiplesOfFive | app.js:279-285 | the gridline values are exactly the multiples of 5 from yMin to yMax |
| TrendChart.WeekLabels | app.js:289-291 | one label W1…Wn per week, at that week's x |
| KpiCard.ForecastColour | app.js:99 | the inline colour rule gives the classifier's tier |
| KpiCard.RenderKpi | app.js:94-99 | the cards show the two store averages and the high-risk count, which is at most the table size; the forecast card's colour is the tier of the average shown |
| KpiCard.ShippedKpiRow | app.js:94-114 | the shipped KPI row is 15.0 in yellow, 19.7 and 2 |
| AssignModal.AssignedMessage | app.js:366 | the success toast is the prefix 已指派給 and a space, followed by the PM |
| AssignModal.CheckForm | app.js:359-360 | a missing PM is reported first, then a missing deadline; otherwise the form is ready |
| AssignModal.Modal.constructor | app.js:26 | no alert is selected and the dialog is hidden at load |
| AssignModal.Modal.OpenAssignModal | app.js:340-347 | the alert is remembered, the form cleared, the dialog shown |
| AssignModal.Modal.CloseModal | app.js:349-352 | the dialog is hidden and no alert is selected |
| AssignModal.Modal.HandleAssignSubmit | app.js:354-370 | a missing PM or deadline only shows its toast; else the store assigns the current alert with the trimmed note, and on success the dialog closes with the PM named in the toast, on failure nothing changes |

## Left out

- DOM work: the `innerHTML` templates, `classList` toggles, event listeners,
  `requestAnimationFrame`, scrolling, the detail view and the project cards
  (app.js:9-243, 372-386). The chart's canvas width is a parameter.
- `renderHome` after a successful assignment (app.js:368) only redraws the
  screen from the queries already modelled.
- The toast timer (`setTimeout`/`clearTimeout`, app.js:391-398): the model
  records the last toast shown, not when it hides.
- SVG markup and the conversion of coordinates into attribute strings
  (app.js:272-334); the chart model gives the numbers.
- Money.FormatMoney: `toFixed(1)` and `toLocaleString()` are runtime number
  formatting; the model gives the exact 千萬 quotient and the plain amount
  instead of their text. Only the 萬 band's text is built. An amount of
  9,995,000 to 9,999,999 shows as "1000 萬", which the contract allows.
- `new Date(...)` parsing of `createdAt`: replaced by an integer timestamp.
- The display-only prose fields of a project (risk reason, risk factors,
  insight, suggestions).
- Floating point: margins and coordinates are exact reals, so the last-digit
  artefacts of JavaScript doubles (as in 0.1 + 0.2) are not modelled.
- Metrics.GetAvgForecastMargin and Metrics.GetAvgTargetMargin: require a
  non-empty table, because the source divides by the table's length and an
  empty table gives NaN.
- KpiCard.RenderKpi: requires a non-empty table, for the same reason.
- TrendChart.XPos, TrendChart.XPosEnds, TrendChart.XPosIncreasing,
  TrendChart.XPosInside and TrendChart.WeekLabels: require at least two
  weeks, because one week makes `xPos` compute 0/0.
- TrendChart.TrendFitsPlot: the horizontal part holds only with two or more
  weeks and a canvas at least 52 pixels wide; a narrower canvas gives the
  plot a negative width.
- Data.Store.AssignAlert: the source overwrites the fields of the same
  alert object the queries hand out, so an alert a caller is holding
  changes too; the model's queries return values, and that aliasing is not
  modelled.
- Data.GetAlerts: the stable order of alerts with equal timestamps is not
  stated, only the permutation and the newest-first order.
- Null or missing inputs (a null id, amount or margin): the code has no
  guards for them and the model's types exclude them, except a null
  `currentAlertId` at submit, which is modelled as no alert selected.
- The hosted-backend variant of the data layer is not part of this model.
