# Portfolio dashboard: verified model of the chart and routing rules

This project models the decision and arithmetic rules of a small Next.js
portfolio dashboard and proves properties of them in Dafny. The dashboard has
six such rules:

- **Chart-request endpoint** (`ChartRequest`). `POST /api/chart-request` reads
  a free-text message and picks one of five canned charts. A fixed-priority
  chain of case-insensitive keyword tests makes the choice. For the line
  charts, `calculatePercentageReturns` turns absolute portfolio values into
  percentage returns against the first month, rounded to hundredths. Two
  independently normalised series are then zipped back together month by
  month.
- **Relative-rotation graph** (`RotationGraph`). Each sector is classified
  into the Leading, Weakening, Lagging or Improving quadrant by its relative
  strength and momentum, with 100 as the threshold on both axes. Each point
  gets a colour and a size, with defaults. The axes are padded min/max bounds.
- **Portfolio chart card** (`PortfolioChart`). Rotation charts are delegated
  to the rotation graph. Line charts get a Y axis symmetric about 0 %. Each
  key of the first row but the first becomes one line, with cycling colours
  and capitalised names.
- **Dashboard grid** (`DashboardGrid`). Four chart slots and a request dialog
  opened for one selected slot. The handlers add, create, remove and close.
  This is a class whose methods update its fields.
- **Route guard** (`RouteGuard`). `middleware.ts` sends visitors without a
  session away from `/chat`, and sends signed-in visitors away from `/login`.
- **Chat endpoint** (`ChatRoute`). `POST /api/chat` answers with one of three
  canned replies. It uses the same rotation keyword test, and otherwise a
  random pick between the first two replies.

Shared modules:

- `Wrappers` holds `Option`.
- `Strings` holds the ASCII case mapping, `includes`, `startsWith` and the
  capitalisation idiom.
- `Numeric` holds `Math.abs`, `Math.ceil`, `Math.min`/`Math.max` and
  `parseFloat(x.toFixed(2))` on real numbers.
- `ChartTypes` holds the chart shapes of `lib/types.ts`.

A line-chart row is a JavaScript object whose key order matters. The x axis
is the first key, and the lines are the remaining keys in order. So a row is
modelled as an ordered list of `(key, value)` fields, not as a label plus an
unordered map. The order is insertion order, which is what JavaScript gives
for keys that are not array indices (see "## Left out"). Object spread
`{...item, [k]: v}` is `ChartTypes.Set`: an existing key is overwritten where
it stands, and a new key goes last. `ChartTypes.DistinctKeys` says a field list
is a real object (no key twice).

The parts the source leaves to its environment are inputs of the model:

- the session lookup of the middleware is the `hasSession` flag;
- the value of `Math.random()` is the `random` argument;
- a request body without a string `message` is `None`.

## Model

| member | source | states |
|---|---|---|
| Strings.Lower | app/api/chart-request/route.ts:26-29 | `toLowerCase`: same length; every character is lower-cased on its own (ASCII letters shift by 32; other characters are kept) |
| Strings.LowerIdempotent | app/api/chart-request/route.ts:26-29 | the lower-cased text has no upper-case letter, and lower-casing it again changes nothing |
| Strings.LowerConcat | app/api/chart-request/route.ts:26-29 | lower-casing distributes over concatenation |
| Strings.StartsWith | middleware.ts:14 | `startsWith(prefix)` holds iff the prefix is no longer than the text and agrees with it character by character |
| Strings.Includes | app/api/chart-request/route.ts:26 | `includes(sub)`: the empty string is always found, and a found string is no longer than the text |
| Strings.IncludesIffOccurs | app/api/chart-request/route.ts:26-29 | `includes(sub)` holds exactly when `sub` occurs at some index of the text (both directions) |
| Strings.IncludesInfix | app/api/chart-request/route.ts:26-29 | text placed between any prefix and suffix is found by `includes` |
| Strings.Capitalize | components/charts/portfolio-chart.tsx:88 | `charAt(0).toUpperCase() + slice(1)`: same length; the first character is upper-cased and the rest is unchanged; "" stays "" |
| Strings.CapitalizeIdempotent | components/charts/portfolio-chart.tsx:73 | capitalising a capitalised name changes nothing |
| Numeric.Abs | components/charts/portfolio-chart.tsx:39 | `Math.abs`: non-negative and equal to `x` or `-x` |
| Numeric.Ceil | components/charts/portfolio-chart.tsx:42 | `Math.ceil`: the least integer not below `x` |
| Numeric.RoundMagnitude | app/api/chart-request/route.ts:14 | `toFixed(2)` on a magnitude: a non-negative whole number of hundredths, within 0.005 of the input, and the upper candidate on a tie |
| Numeric.RoundHundredths | app/api/chart-request/route.ts:14 | `parseFloat(x.toFixed(2))`: a whole number of hundredths within 0.005 of `x`, with the sign of `x` kept |
| Numeric.RoundHundredthsOdd | app/api/chart-request/route.ts:14 | rounding is symmetric about zero (ties go away from zero) |
| Numeric.RoundHundredthsOfHundredths | app/api/chart-request/route.ts:14 | a value already in hundredths is left unchanged |
| Numeric.RoundHundredthsIdempotent | components/charts/portfolio-chart.tsx:72 | rounding twice equals rounding once |
| Numeric.Min | components/charts/relative-rotation-graph.tsx:88 | `Math.min(...xs)` is an element of `xs` and is at most every element |
| Numeric.Max | components/charts/relative-rotation-graph.tsx:89 | `Math.max(...xs)` is an element of `xs` and is at least every element |
| ChartTypes.Keys | components/charts/portfolio-chart.tsx:78 | `Object.keys`: one key per field, in insertion order |
| ChartTypes.Get | lib/types.ts:35 | `rec[k]` is defined exactly when `k` is a key, and then it is the value of a field `k` of the record |
| ChartTypes.Replace | app/api/chart-request/route.ts:12-15 | overwriting an existing key keeps the key order, sets that key, and leaves every other key's value alone |
| ChartTypes.GetAppend | app/api/chart-request/route.ts:12-15 | appending a field leaves existing keys' values unchanged and defines only the new key |
| ChartTypes.Set | app/api/chart-request/route.ts:12-15 | `{...rec, [k]: v}` holds `v` under `k`, has every other key's old value, and keeps the old key order, with `k` appended when it is new |
| ChartTypes.SetKeepsDistinctKeys | app/api/chart-request/route.ts:12-15 | a spread copy of an object with distinct keys still has distinct keys |
| ChartTypes.SectorNames | lib/types.ts:24-30 | the names of the rotation points, one per point, in order |
| ChartRequest.PercentChange | app/api/chart-request/route.ts:11-14 | the shown change is a whole number of hundredths within 0.005 of the exact percentage change `(v - v0) / v0 * 100` |
| ChartRequest.ReturnAt | app/api/chart-request/route.ts:11 | record 0 reads exactly 0 without using the baseline; record i > 0 reads a number of hundredths within 0.005 of its exact change against record 0 |
| ChartRequest.PercentageReturns | app/api/chart-request/route.ts:5-17 | empty input gives empty output; the length is kept; record 0 reads 0; record i reads ReturnAt i; every other field is copied unchanged; the key order is kept, with the key appended to a one-record series that lacked it; distinct keys stay distinct |
| ChartRequest.OneRecordNeedsNoBaseline | app/api/chart-request/route.ts:6-15 | a one-record series always normalises: its record gets 0 under the key, or the key is added with 0 |
| ChartRequest.PercentChangeRecoversValue | app/api/chart-request/route.ts:11-14 | `v0 * (1 + r/100)` recovers the absolute value `v` to within 0.00005 of `abs(v0)` |
| ChartRequest.PercentChangeSign | app/api/chart-request/route.ts:11-14 | against a positive first value, a rise never shows as a loss and a fall never shows as a gain |
| ChartRequest.RawSeries | app/api/chart-request/route.ts:89-102 | a literal `rawData` table has one record per month |
| ChartRequest.RawRowFields | app/api/chart-request/route.ts:90-101 | a literal row reads back its date and its two values |
| ChartRequest.RawSeriesWellFormed | app/api/chart-request/route.ts:89-106 | a literal table whose first values are not zero can be normalised on both keys, and its rows read back its dates and values |
| ChartRequest.MergedRow | app/api/chart-request/route.ts:113-117 | a merged row has exactly the keys `date`, then the first series, then the second (distinct), holding the given values |
| ChartRequest.NormalisedAt | app/api/chart-request/route.ts:105-106 | row i of a normalised copy holds row i's return under the normalised key |
| ChartRequest.MergeSeries | app/api/chart-request/route.ts:105-117 | merged row i has raw row i's date, and each series' return at index i measured against that series' own first value; the length is the raw length |
| ChartRequest.MergedRowStartsAtZero | app/api/chart-request/route.ts:11 | a chart whose first row is a merged row of zeros "starts at 0%" on every series |
| ChartRequest.MergedLiteralTable | app/api/chart-request/route.ts:89-117 | the merged chart of a literal table starts at 0 % on both series, and month i holds each series' rounded change from its own January value |
| ChartRequest.ReturnsChart | app/api/chart-request/route.ts:108-118 | a line chart titled as given, with axis labels "Month" and "Return (%)", one row per month, starting at 0 %, with row i as in MergedLiteralTable |
| ChartRequest.AsksForRotation | app/api/chart-request/route.ts:26-29 | the first test holds iff one of "relative", "rotation", "sector", "quadrant" occurs at some position of the text |
| ChartRequest.AsksForSP500 | app/api/chart-request/route.ts:86 | the second test holds iff "s&p" or "sp500" occurs at some position of the text |
| ChartRequest.SectorPointsAsListed | app/api/chart-request/route.ts:35-84 | the rotation chart has eight sectors with distinct names, no colour of their own and a positive size each |
| ChartRequest.SectorNamesAsListed | app/api/chart-request/route.ts:35-84 | the eight sector names, in the order the chart lists them |
| ChartRequest.IntentOf | app/api/chart-request/route.ts:26-177 | dispatch precedence on the lower-cased message: a rotation keyword; else "s&p"/"sp500"; else "nasdaq"; else "tech"; else the default benchmark (each as an if-and-only-if) |
| ChartRequest.IntentIgnoresCase | app/api/chart-request/route.ts:26-29 | the dispatch does not depend on letter case |
| ChartRequest.RotationKeywordWins | app/api/chart-request/route.ts:26-29 | a rotation keyword, in any case and anywhere in the message, selects the rotation chart whatever else is mentioned |
| ChartRequest.ChartFor | app/api/chart-request/route.ts:30-202 | the rotation intent alone gives the rotation chart with the eight sectors; S&P and NASDAQ give 12 monthly rows and the others 6; every line chart starts at 0 % |
| ChartRequest.Post | app/api/chart-request/route.ts:19-220 | a missing message gives the 500 error and nothing else does; otherwise the chart is the one for the message's intent, and the rotation text is sent exactly with a rotation chart and the returns text exactly with a line chart |
| ChartRequest.TechSectorGetsRotation | app/api/chart-request/route.ts:26-151 | "tech sector" (in any case) gets the rotation chart, not the tech chart |
| ChartRequest.SP500SecondRow | app/api/chart-request/route.ts:113-117 | February of the S&P chart is the merged row of the two February changes |
| ChartRequest.FebruaryChanges | app/api/chart-request/route.ts:90-91 | 50000 to 50300 is a 0.6 % change and 50000 to 50150 is a 0.3 % change |
| ChartRequest.PercentChangeExample | app/api/chart-request/route.ts:91 | the February percentages, computed from the four values |
| ChartRequest.SP500February | app/api/chart-request/route.ts:91 | the S&P chart shows February as portfolio 0.6 and sp500 0.3 |
| RotationGraph.GetQuadrantInfo | components/charts/relative-rotation-graph.tsx:29-39 | the result is one of the four legend entries; Leading iff rs ≥ 100 and m ≥ 100, Weakening iff rs ≥ 100 and m < 100, Lagging iff both are below 100, Improving iff rs < 100 and m ≥ 100 |
| RotationGraph.LegendIsInjective | components/charts/relative-rotation-graph.tsx:93-98 | the four legend entries have distinct labels and distinct colours |
| RotationGraph.InfoDeterminedByLabel | components/charts/relative-rotation-graph.tsx:22-39 | two classifications with the same label have the same colour and description |
| RotationGraph.DescriptionFollowsAxes | components/charts/relative-rotation-graph.tsx:29-39 | the description starts with "Strong" iff rs ≥ 100 and ends with "Accelerating" iff momentum ≥ 100 |
| RotationGraph.Enhance | components/charts/relative-rotation-graph.tsx:75-83 | name and coordinates kept; `quadrant` is the computed label; a non-empty colour overrides the quadrant colour, and a missing or empty one falls back to it; size defaults to 100 when missing or 0 |
| RotationGraph.EnhancedData | components/charts/relative-rotation-graph.tsx:75-83 | one enhanced point per input point, in the same order |
| RotationGraph.ColorOverrideKeepsQuadrant | components/charts/relative-rotation-graph.tsx:79-81 | an explicit colour changes the drawn colour but never the reported quadrant |
| RotationGraph.PointColorMatchesLegend | components/charts/relative-rotation-graph.tsx:75-98 | without an override, a point's colour is the legend colour of its quadrant |
| RotationGraph.TooltipInfo | components/charts/relative-rotation-graph.tsx:41-44 | the tooltip shows one of the legend entries |
| RotationGraph.TooltipAgreesWithPoint | components/charts/relative-rotation-graph.tsx:41-83 | the tooltip names the quadrant stored on the point and, when the point has no colour or the empty colour, shows its colour |
| RotationGraph.RSValues | components/charts/relative-rotation-graph.tsx:86 | `allRS` lists each point's relative strength, in order |
| RotationGraph.MomentumValues | components/charts/relative-rotation-graph.tsx:87 | `allMomentum` lists each point's momentum, in order |
| RotationGraph.PaddedDomain | components/charts/relative-rotation-graph.tsx:88-91 | with 90 and 110 added before min/max and 5 of padding (lines 147, 159): the domain spans at least [85, 115], every value is at least 5 inside it, and each bound is 90/110 or a data value |
| RotationGraph.Render | components/charts/relative-rotation-graph.tsx:68-159 | the title is kept; axis labels default to "Relative Strength" and "Momentum"; the legend and points are as above; the x and y domains are the padded domains of the relative strengths and of the momenta; every point and the neutral value 100 lie strictly inside both domains |
| PortfolioChart.NumbersOf | components/charts/portfolio-chart.tsx:31-34 | a value feeds the domain iff it is a number stored under a key other than "date" |
| PortfolioChart.AllValues | components/charts/portfolio-chart.tsx:30-35 | the `flatMap`: a value is collected iff some row contributes it |
| PortfolioChart.MaxAbs | components/charts/portfolio-chart.tsx:37-39 | the largest magnitude: it bounds every value's magnitude and is attained |
| PortfolioChart.RoundedMax | components/charts/portfolio-chart.tsx:42 | even, at least 4, and between maxAbs + 4 (inclusive) and maxAbs + 6 (exclusive) |
| PortfolioChart.SymmetricDomain | components/charts/portfolio-chart.tsx:37-45 | `[-r, r]`, with r even and at least 4; every collected value is at least 4 inside it, and r is less than 6 above the largest magnitude |
| PortfolioChart.RoundedMaxExample | components/charts/portfolio-chart.tsx:42 | a largest magnitude of 6.4 gives r = 12 |
| PortfolioChart.SeriesLines | components/charts/portfolio-chart.tsx:78-89 | one line per key of the first row but its first, in key order; line i uses `colors[i % 5]` and the capitalised key as its name |
| PortfolioChart.SeriesLinesDistinct | components/charts/portfolio-chart.tsx:78-82 | a first row with distinct keys gives lines with distinct data keys |
| PortfolioChart.ColorsCycle | components/charts/portfolio-chart.tsx:85 | two lines share a colour iff they are a multiple of five apart |
| PortfolioChart.TooltipEntry | components/charts/portfolio-chart.tsx:71-74 | the value is a whole number of hundredths within 0.005 of the input, and the name is the capitalised name, by the same rule as the legend |
| PortfolioChart.TooltipMatchesLegend | components/charts/portfolio-chart.tsx:71-88 | the tooltip shows a line's legend name unchanged, and a value already in hundredths unchanged |
| PortfolioChart.Render | components/charts/portfolio-chart.tsx:12-62 | a rotation chart goes to the rotation graph with its title, points and labels; a line chart gets its title, the first key as x axis, the symmetric domain and the series lines |
| RouteGuard.Middleware | middleware.ts:5-24 | redirect to /login iff the path starts with "/chat" and there is no session; redirect to /chat iff the path is "/login" and there is a session; otherwise pass |
| RouteGuard.Matched | middleware.ts:27 | `/chat/:path*` and `/login` match exactly "/login", "/chat", and the paths that start with "/chat" followed by "/" |
| RouteGuard.Guard | middleware.ts:26-28 | a matched path gets the middleware's decision; paths outside the matcher pass; every redirect target is itself matched |
| RouteGuard.SignedInLoginGoesToChat | middleware.ts:19-27 | through the guard, a signed-in visitor at /login is sent to /chat, and a visitor without a session is served /login |
| RouteGuard.RedirectsExclusive | middleware.ts:14-21 | the two redirect conditions never both hold, so testing them in the other order decides the same |
| RouteGuard.NoRedirectLoop | middleware.ts:14-27 | following a redirect with the same session reaches a page that passes |
| RouteGuard.ChatNeedsSession | middleware.ts:14-27 | /chat and every path under it redirect a visitor without a session to /login |
| RouteGuard.MatcherNarrowerThanPrefixTest | middleware.ts:14-27 | "/chatroom" passes the prefix test but is outside the matcher, so it is served without a session |
| DashboardGrid.EmptySlots | components/dashboard/dashboard-grid.tsx:12 | four slots, all empty |
| DashboardGrid.PutInSlot | components/dashboard/dashboard-grid.tsx:23-25 | the copied slot list has the same length, the new value in the given slot, and every other slot unchanged |
| DashboardGrid.RemoveIdempotent | components/dashboard/dashboard-grid.tsx:31-35 | emptying a slot twice equals emptying it once |
| DashboardGrid.Grid.constructor | components/dashboard/dashboard-grid.tsx:12-14 | four empty slots, the dialog closed, no selected slot |
| DashboardGrid.Grid.AddChart | components/dashboard/dashboard-grid.tsx:16-19 | selects the slot and opens the dialog; the slots are unchanged; the grid invariant is kept |
| DashboardGrid.Grid.ChartCreated | components/dashboard/dashboard-grid.tsx:21-29 | stores the chart in the selected slot only, or changes no slot when none is selected; always closes the dialog and clears the selection |
| DashboardGrid.Grid.RemoveChart | components/dashboard/dashboard-grid.tsx:31-35 | empties that slot only; the dialog state is untouched |
| DashboardGrid.Grid.CloseModal | components/dashboard/dashboard-grid.tsx:80-83 | closes the dialog and clears the selection; the slots are unchanged |
| DashboardGrid.AddThenCreate | components/dashboard/dashboard-grid.tsx:16-29 | choosing a slot and creating a chart fills that slot and no other, and leaves the dialog closed |
| DashboardGrid.AddThenClose | components/dashboard/dashboard-grid.tsx:16-83 | choosing a slot and cancelling leaves the slots as they were, with the dialog closed |
| DashboardGrid.RemoveTwice | components/dashboard/dashboard-grid.tsx:31-35 | removing twice leaves the same slots as removing once |
| ChatRoute.AsksForRotation | app/api/chat/route.ts:118-121 | the chat keyword test holds exactly when the chart-request rotation test does |
| ChatRoute.RandomIndex | app/api/chat/route.ts:127 | `Math.floor(Math.random() * 2)` is 0 or 1, and it is 0 iff the draw is below 0.5 |
| ChatRoute.Post | app/api/chat/route.ts:110-133 | a missing message gives the 500 error; a rotation keyword gives reply 2; any other message gives reply 0 or reply 1 |
| ChatRoute.ResponsesDistinct | app/api/chat/route.ts:5-48 | the three canned replies are pairwise different |
| ChatRoute.SameRotationTestAsChartRequest | app/api/chat/route.ts:118-123 | the chat keyword test is the chart-request test, so the chat answers with the rotation reply iff the chart endpoint would draw the rotation chart |
| ChatRoute.BothOtherRepliesReachable | app/api/chat/route.ts:127 | for a non-rotation message, both reply 0 and reply 1 can be drawn |
| ChatRoute.MockResponseShapes | app/api/chat/route.ts:46-107 | reply 2 carries one rotation chart of eight distinct sectors, and exactly Technology and Communication Services are Leading, as its text says; replies 0 and 1 carry one line chart each |

## Left out

- Rendering (JSX, recharts, CSS, legends, layout), the login page, the session provider and the other pages are not part of this model.
- The network clients (`lib/api-service.ts`, `lib/api.ts`, `hooks/use-chat-history.ts`), the stock-analysis widget and the chat and request dialogs are not part of this model. They are fetch calls, toasts and timers.
- The middleware's session lookup is an external await. It is the `hasSession` input, and `NextResponse` objects are reduced to `Next` / `Redirect(location)`.
- The one-second `setTimeout` delay of the chat endpoint is not modelled. `Math.random()` is the `random` input in [0, 1).
- Numbers are exact reals, not IEEE doubles. `toFixed(2)` rounds the exact value, with ties away from zero. In JavaScript it rounds the binary double, so a tie such as 1.005 can go the other way.
- Numeric.RoundHundredths: the rounding of the exact real is stated, not the rounding of its nearest double.
- Strings.Lower: only ASCII letters are case-mapped. JavaScript's full Unicode case mapping (for example for "É") is not modelled.
- Strings.Capitalize: only an ASCII first letter is upper-cased. JavaScript's full mapping (for example "ß" to "SS") is not modelled.
- ChartTypes.Keys: array-index keys (such as "0" or "2023") are not modelled. JavaScript lists them first, in ascending order, before the other keys. For a row `{month: "Jan", "2023": 1}` the chart would take "2023" as its x axis; the model takes "month".
- ChartTypes.Set: for the same reason, a new array-index key is appended last, while JavaScript places it among the index keys at the front.
- ChartRequest.PercentageReturns: for a series of two or more records, requires every record to hold a number under the key and the first one to be non-zero. Otherwise the source converts the value with JavaScript's `-` (a numeric string such as "110" gives a number, anything else NaN) or divides by zero; the model represents none of these. Series of zero or one record are modelled in full.
- The `console.error` call in the chart-request error branch is logging and is not modelled.
- ChartRequest.Post: a body that is not JSON and a `message` that is not a string both count as a missing message (`None`). Both make the source throw into its 500 branch.
- ChatRoute.Post: as for ChartRequest.Post, a missing or non-string `message` is `None`.
- PortfolioChart.Render: requires a first row and at least one number. Without them, `Math.min()` of nothing is Infinity and `Object.keys(undefined)` throws.
- PortfolioChart.SymmetricDomain: requires at least one collected value, for the same reason.
- The Y axis `tickFormatter` (`Math.round` plus "%") and the tooltip's `toFixed(1)` display strings are text formatting and are not modelled.
- RotationGraph.Enhance: `size || 100` also replaces NaN. NaN does not exist among reals, so only a missing size and 0 are modelled.
- DashboardGrid.Grid.ChartCreated: reads the grid's current selection and slots. In the source, the request dialog calls the handler it captured when the request was sent, after an awaited fetch or a one-second timer. That handler sees the selection and slots of that earlier render. So a reply that arrives after the dialog was closed still fills the old slot, and it overwrites later slot changes with the captured list. The model does not capture this.
- The grid methods take a slot in 0..3. The source only calls them with indices of its own four-slot array.
- The chart datasets of the chart-request endpoint are modelled exactly. The concrete results proved about them are limited to the February row of the S&P chart and the start-at-zero property of all four line charts.
