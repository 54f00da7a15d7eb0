# covid-testing chart core, in Dafny

A model of the sequential logic of `chart.js`, the browser script that plots per-region
COVID-19 testing trails over a US map:

- **Dataset reducer** (`dataset.dfy`, module `Dataset`): the `ds.reduce(..., {})` callback
  that folds the daily records into a map from region code to `{pos, hsp, raw}`. The
  callback is the class `Accumulator` with `Add`. `Reduce` runs it over the feed and is
  proved equal to the specification `Fold`. Lemmas connect `Fold` to reference
  definitions read off the feed: `Owned` (a region's qualifying records), `Deltas`, and
  `PosTrail`/`HspTrail` (the plotted points, last reduced first, in reverse feed order).
- **Trail markup** (`markup.dfy`, `trails.dfy`): `markers` and `text`, and the per-region
  `<g class="trail XX">` group. Markup is produced as structured elements, not text.
- **Bar chart** (`barchart.dfy`, module `BarChart`): `barChart`'s bar width, joint maximum,
  bar placement and heights (over `real`), and the label pass. The label pass is given both
  as written and corrected (see Findings); `Chart` draws the labels as written and
  `CorrectedChart` with the corrected pass.
- **Highlight controller** (`highlight.dfy`, module `Highlight`): the `highlight` closure.
  It is modelled as the pure transitions `OnSelect`/`OnTimeout` over an explicit state
  (`highlighted`, `fadePending`, `bodyShow`), plus the class `Controller` whose methods
  update those fields in place. Popup, trail and timer side effects are recorded as an
  `Effect` log. The 2000 ms fade-out timer is a discrete `Timeout` event.
- **`mapStateId`** (`stateid.dfy`): the region code of a map element id matching `^([A-Z]{2})-?$`.

The two log scales are parameters of the reducer (`Env.hScale`, `Env.vScale`, each `real -> int`).
The population table is an abstract `map<string, nat>` in which a zero entry reads as falsy.
Record counts are optional values. An absent cumulative count reads as 0 through `x || 0`.
Daily increases are copied into `raw` as delivered, absent or not.

`raw` grows by `raw.push` (chart.js:99), so it is in feed order; `pos` and `hsp` grow by
`unshift` (chart.js:107, 109), so they hold the last reduced point first, in reverse
feed order.

## Model

| member | source | states |
|---|---|---|
| Dataset.Accumulator.constructor | chart.js:116 | the reduction starts from the empty object `{}` |
| Dataset.Accumulator.Add | chart.js:91-116 | one callback: the accumulated map becomes `Step` of the old map and the record |
| Dataset.Reduce | chart.js:90-117 | reducing the whole feed yields `Fold` of the empty map over the records |
| Dataset.Owned | chart.js:96 | a record is kept for a region exactly when it has truthy `positive`, known population and that region code, and every kept record satisfies this |
| Dataset.OwnedAppend | chart.js:90-96 | the kept records of a concatenated feed are those of the first part followed by those of the second, so they stay in feed order |
| Dataset.Deltas | chart.js:99-104 | one raw tuple per kept record |
| Dataset.DeltasAt | chart.js:99-104 | the i-th raw tuple is built from the four `*Increase` fields of the i-th kept record |
| Dataset.StepFrame | chart.js:96-113 | a record with falsy `positive` or unknown population leaves the map unchanged; otherwise only its own region's entry is created or changed |
| Dataset.StepGrowth | chart.js:99-112 | a qualifying record appends exactly one raw tuple at the end of `raw`; when its rate is >= 0 its point is put in front of the unchanged old `pos`, and when hospitalized is truthy too its point is put in front of the unchanged old `hsp`; otherwise those stay unchanged |
| Dataset.FoldSnoc | chart.js:90-117 | reducing one more record is one more callback on the reduced map |
| Dataset.ExtendCons | chart.js:99-110 | a region's series after one more qualifying record then more equals the series extended by all of them |
| Dataset.FoldSeries | chart.js:90-117 | from any start map, each region's series is its start series extended by exactly its qualifying records, and a region gains an entry only through one |
| Dataset.FoldFromEmpty | chart.js:90-117 | a region has an entry iff it has a qualifying record; then `raw` equals the deltas of its qualifying records (so the length of `raw` is their number), `pos`/`hsp` their plotted points in reverse feed order |
| Dataset.TrailLengths | chart.js:106-110 | for any run of kept records, the hospitalisation trail is no longer than the positivity trail, which is no longer than the run |
| Dataset.SeriesLengths | chart.js:99-110 | every reduced region has length of `hsp` <= length of `pos` <= length of `raw` |
| Dataset.LastReducedFirst | chart.js:106-107 | when the last record plots, its point is `pos[0]`, followed by the earlier `pos` unchanged |
| Dataset.PosTrailAppend | chart.js:106-107 | the plotted points of kept records `a + b` are those of `b` (newer) before those of `a` |
| Dataset.ConsecutiveOrder | chart.js:106-107 | anywhere in the feed, of two plotted records of one region with no plotted record of that region between them, the later one's point sits directly before the earlier one's in `pos`, after the points of all later plotted records of the region and before those of all earlier ones |
| Markup.Uses | chart.js:134 | one `<use>` marker per point, at that point, in point order |
| Markup.Markers | chart.js:132-141 | empty output iff no points; otherwise the markers, then one polyline through all points, then the region label at the last point |
| Trails.TrailGroupShape | chart.js:119-121 | a reduced region's group is empty iff its `pos` is empty; its length is that of the positivity trail plus that of the hospitalisation trail, each with a closing polyline and label; the `pos` markers, polyline and label come first, and the `hsp` markers, polyline and label follow them |
| BarChart.BarWidth | chart.js:162 | the bar cell width lies in [2, 7]: 7 for up to 44 bars, 2 beyond 100 |
| BarChart.CellLayout | chart.js:167-178 | bar 0 is the rightmost cell, cells are adjacent, and for cells of width >= 4 the label sits over the middle of its bar |
| BarChart.CellsFit | chart.js:162-167 | all `n` bars start at x >= 0 exactly when `n <= 200` |
| BarChart.MaxOf | chart.js:161 | `Math.max(...s)` is an element of `s` and bounds every element |
| BarChart.MaxValue | chart.js:161 | the joint maximum is NaN iff a value is missing, else at least 0, bounds both fields, and when positive is attained by one of them |
| BarChart.BarOnBaseline | chart.js:166-167 | every bar touches the shared baseline, on the side `height * value` points to |
| BarChart.BarWithinBudget | chart.js:166-167 | a value in [0, max] gets at most the full height budget (the absolute value of `height`), the maximum exactly it |
| BarChart.FirstIndex | chart.js:175-176 | the index found holds the value and no earlier index does |
| BarChart.LabelIndices | chart.js:172-180 | the corrected label pass labels exactly the first index holding the field maximum, and nothing when the maximum is 0 |
| BarChart.LabelIndicesAsWritten | chart.js:172-180 | the label pass as written labels, in increasing order, exactly the first index holding the maximum and every later index whose value is -1, and nothing when the maximum is 0 |
| BarChart.AsWrittenUpToSpec | chart.js:175-178 | the indices below `i` labelled as written are exactly those holding the first maximum or a later -1, strictly ascending |
| BarChart.SentinelCollision | chart.js:176-177 | on values [5, -1] the written pass labels indices 0 and 1, the corrected one only index 0 |
| BarChart.FieldLabelsFirstMax | chart.js:170-181 | a field with a non-zero maximum gets exactly one label, showing the maximum over the first bar reaching it; otherwise none |
| BarChart.Chart | chart.js:159-183 | nothing unless the joint maximum is a non-zero number; otherwise the bars of both fields, then each field's labels as the written pass places them (on the first maximum and on every later -1) |
| BarChart.CorrectedChart | chart.js:159-183 | the same bars, then at most one label per field, on the first bar holding the field's maximum |
| Highlight.SelectFromIdle | chart.js:47-51 | selecting R while idle highlights R, shows the body and fills the popup once |
| Highlight.Reselect | chart.js:31-36 | selecting the highlighted region again only cancels a pending fade |
| Highlight.Swap | chart.js:31-40 | selecting S while R is highlighted swaps popup and trail directly, cancels a pending fade and leaves the body class alone |
| Highlight.Deselect | chart.js:36-46 | deselecting while highlighted starts a fade only if none is pending |
| Highlight.DeselectIdle | chart.js:36 | deselecting while idle does nothing |
| Highlight.StepConsistent | chart.js:29-53 | every step keeps: a fade is pending only while highlighted, and the body shows exactly while highlighted |
| Highlight.SelectIdempotent | chart.js:30-53 | the same selection twice in a row: the second changes nothing and does nothing |
| Highlight.LeaveAndReturn | chart.js:31-46 | leaving and returning before the timer fires keeps R highlighted throughout and cancels the fade without rebuilding the popup |
| Highlight.RunConsistent | chart.js:29-54 | every run from a consistent state ends consistent |
| Highlight.StepTimers | chart.js:31-45 | a step emits a fade start only when no fade is pending, and a cancel or a fade-out only when one is; its started minus cancelled minus fired timers equal the change in `fadePending` |
| Highlight.RunTimers | chart.js:29-54 | over a run, timers started minus cancelled minus fired equals the change in `fadePending` |
| Highlight.AtMostOneTimer | chart.js:29-54 | from the start, at most one fade-out timer is ever live, exactly when `fadePending` holds |
| Highlight.Controller.constructor | chart.js:29-30 | the closure starts with nothing highlighted and no timer |
| Highlight.Controller.Select | chart.js:30-53 | `highlight(state)` updates the fields and appends the effects as `OnSelect` prescribes |
| Highlight.Controller.Timeout | chart.js:42-45 | the timer callback clears the body class and the highlight, as `OnTimeout` prescribes |
| StateId.MapStateId | chart.js:185-188 | a result is a two-capital-letter code and the id is that code, optionally followed by '-' |
| StateId.MapStateIdAccepts | chart.js:185-188 | every code yields itself, with and without the trailing '-' |
| StateId.MapStateIdExact | chart.js:186 | an id is accepted exactly when it matches `^[A-Z]{2}-?$` |

## Left out

- `logScale`, `vScale`, `hScale` (chart.js:11-17): their `Math.log`/`Math.round` floating-point arithmetic. The scales are arbitrary `real -> int` parameters.
- The population values (chart.js:3-9): an abstract map in which zero or missing reads as falsy. Keys inherited from `Object.prototype` are not modelled.
- `dataset` and `loadMap` (chart.js:19-27, 56-68): HTTP fetches, SVG parsing and error logging are I/O.
- `loadCss` (chart.js:70-83), the event listeners (chart.js:124-130), `findParentWithClass` (chart.js:144-151) and `highlightTrail` (chart.js:190-200) operate on live DOM nodes. `highlightTrail` and `fillPopup` (chart.js:153-157) appear only as recorded effects.
- `fillPopup` throws for a region that has no entry in the reduced map. That exception, and the state it leaves, are not modelled.
- An empty-string selection (falsy in JavaScript) is not distinguished from a region: `Some` always stands for a truthy region code.
- `setTimeout`/`clearTimeout` timing: the 2000 ms delay is the discrete `Timeout` event, which fires only while a fade is pending.
- The order in which `Object.keys(all)` lists the trail groups (chart.js:119-121): `Trails.TrailGroup` renders one region at a time.
- Serialising elements to markup text (template literals, number formatting, `join`).
- Bar heights and label positions are exact `real` arithmetic, not IEEE doubles.
- A JSON `null` daily increase, which `Math.max` reads as 0, is not distinguished from an absent one, which makes the maxima NaN.

## Findings

| source | as written | input that shows it | evidently intended | confidence | as-written member | corrected member |
|---|---|---|---|---|---|---|
| chart.js:176-177 | after the first bar holding the field maximum, `maxFieldValue = -1` marks the field as labelled, but later bars are still compared with it, so any later daily change of exactly -1 is labelled too | a field whose values are [5, -1] (for example a death count corrected down by one): labels at indices 0 and 1, the second reading "-1" | one label per field, on the first bar holding its maximum | not executed; needs a negative daily increase of exactly -1 after the peak | BarChart.LabelIndicesAsWritten, BarChart.Chart, BarChart.SentinelCollision | BarChart.LabelIndices, BarChart.CorrectedChart |
