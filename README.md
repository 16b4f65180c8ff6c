# Scatter-plot axis selection, scales and tooltip

A model of the logic inside `assets/js/app.js`, the script of a D3 scatter plot
that compares U.S. states' demographic metrics (poverty, median age, median
household income) with health metrics (lacking healthcare, smoking, obesity).
The user picks the metric each axis shows by clicking one of three labels under
the X axis or one of three labels beside the Y axis.

The model has two parts.

- **Scales and tooltip (pure).** `Scales.XScale` and `Scales.YScale` give the
  domain and range that `xScale`/`yScale` hand to `d3.scaleLinear`:
  `[0.9 * min, 1.1 * max]` onto `[0, 940]` for X, and `[0.75 * min, 1.05 * max]`
  onto the inverted `[500, 0]` for Y. The minimum and maximum are recursive
  left-to-right scans (`MinOf`, `MaxOf`). An empty dataset gives the domain
  `Undefined`, which stands for the NaN endpoints the scan would produce.
  `ToolTips` holds the two label-text chains of `updateToolTip` and the
  tooltip's HTML template.
- **Selection state machine (imperative).** `ScatterChart.Chart` is a class
  holding what the page keeps in closure variables: the chosen X and Y fields,
  the current scales, and the `active`/`inactive` classes of the six label
  elements. Its `toolTip` field stands for the tooltip currently bound to the
  circles: each `updateToolTip` call builds a new `d3.tip` and binds it to the
  circles' mouse events, replacing the previous one. Each class pair is a `LabelClass` field. `ClickX`
  and `ClickY` are the two click handlers: the guard, the assignment, the
  recomputed scale and tooltip, and the if/else-if/else restyling chain.
  Each method is proved against a pure reducer (`Selection.StepX`,
  `Selection.StepY`) on a `ChartState` snapshot. The lemmas of `Selection` are
  stated about that reducer: the invariant, idempotence, independence of the
  axes, commuting clicks, and the return to a previous selection.

Modules: `Demographics` (records, fields), `Scales`, `ToolTips`, `Selection`,
`ScatterChart`.

The label texts follow the code exactly: `"Poverty (%):"`, `"Age :"` (with a
space before the colon), `"Income ($):"`, `"Healthcare (%):"`, `"Smokes (%):"` and
`"Obesity (%):"`.

At start-up the X labels are each given only one class: the poverty label gets
`active`, and the age and income labels get `inactive`. The class that is not
set is absent, so the model gives it `false`. The Y labels have both classes set
explicitly (`active` true and `inactive` false for healthcare, the reverse for
smokes and obesity). The initial classes therefore agree with
what the restyling chain produces for `(poverty, healthcare)`
(`Selection.InitialState`).

## Model

| member | source | states |
|---|---|---|
| `Demographics.XValue` | assets/js/app.js:34-35 | no contract of its own: `d[chosenXAxis]` for the three X fields; stated through `Scales.XScaleShape` and `Scales.XDomainCovers` |
| `Demographics.YValue` | assets/js/app.js:46-47 | no contract of its own: `d[chosenYAxis]` for the three Y fields; stated through `Scales.YScaleShape` and `Scales.YDomainCovers` |
| `Scales.MinOf` | assets/js/app.js:34 | no contract of its own: the `d3.min` scan; stated by `Scales.MinOfIsLowerBound` and `Scales.MinOfIsAttained` |
| `Scales.MaxOf` | assets/js/app.js:35 | no contract of its own: the `d3.max` scan; stated by `Scales.MaxOfIsUpperBound` and `Scales.MaxOfIsAttained` |
| `Scales.PaddedDomain` | assets/js/app.js:34-35 | no contract of its own: the padded `[min * low, max * high]` domain; stated by `Scales.PaddedDomainExtent` and `Scales.PaddedDomainCovers` |
| `Scales.XScale` | assets/js/app.js:31-41 | no contract of its own: `xScale`'s domain and range; stated by `Scales.XScaleShape` and `Scales.XDomainCovers` |
| `Scales.YScale` | assets/js/app.js:43-53 | no contract of its own: `yScale`'s domain and range; stated by `Scales.YScaleShape` and `Scales.YDomainCovers` |
| `Scales.MinOfIsLowerBound` | assets/js/app.js:34 | the minimum scan of the chosen field is no greater than any record's value |
| `Scales.MinOfIsAttained` | assets/js/app.js:34 | the minimum scan returns one of the records' values |
| `Scales.MaxOfIsUpperBound` | assets/js/app.js:35 | the maximum scan is no smaller than any record's value |
| `Scales.MaxOfIsAttained` | assets/js/app.js:35 | the maximum scan returns one of the records' values |
| `Scales.PaddedDomainExtent` | assets/js/app.js:34-35 | for a non-empty column, the domain is `[m * low, n * high]`, where `m` is the least and `n` the greatest value of the column |
| `Scales.PaddedDomainCovers` | assets/js/app.js:34-35 | for non-negative values and `low <= 1 <= high`, the padded domain is ordered and contains every value |
| `Scales.XScaleShape` | assets/js/app.js:31-37 | the X range is `[0, 940]` (940 = 1080 - 100 - 40); the domain is undefined exactly when the dataset is empty, and otherwise it is `[0.9 * least, 1.1 * greatest]` of the chosen field |
| `Scales.YScaleShape` | assets/js/app.js:43-49 | the Y range is the inverted `[500, 0]` (500 = 600 - 20 - 80); the domain is undefined exactly when the dataset is empty, and otherwise it is `[0.75 * least, 1.05 * greatest]` of the chosen field |
| `Scales.XDomainCovers` | assets/js/app.js:34-35 | when the chosen field is non-negative in every record, the X domain is ordered and every record's value lies inside it |
| `Scales.YDomainCovers` | assets/js/app.js:46-47 | when the chosen field is non-negative in every record, the Y domain is ordered and every record's value lies inside it |
| `Scales.NegativeValueInvertsXDomain` | assets/js/app.js:34-35 | one record with a negative value gives a domain whose low end is above its high end, with the value outside it, so the non-negativity condition is needed |
| `ToolTips.XLabelText` | assets/js/app.js:113-120 | no contract of its own: the X label-text chain; stated by `ToolTips.XLabelTextInjective` and `ToolTips.TipHtmlLines` |
| `ToolTips.YLabelText` | assets/js/app.js:122-129 | no contract of its own: the Y label-text chain; stated by `ToolTips.YLabelTextInjective` and `ToolTips.TipHtmlLines` |
| `ToolTips.UpdateToolTip` | assets/js/app.js:112-138 | no contract of its own: the tooltip built for the chosen fields; stated by `ToolTips.TipHtmlLines` and, for what a click does to it, `Selection.AxesAreIndependent` |
| `ToolTips.TipHtml` | assets/js/app.js:134-136 | no contract of its own: the tooltip's HTML template; stated by `ToolTips.TipHtmlLines` |
| `ToolTips.XLabelTextInjective` | assets/js/app.js:113-120 | the X label text identifies the X field: different fields get different texts |
| `ToolTips.YLabelTextInjective` | assets/js/app.js:122-129 | the Y label text identifies the Y field: different fields get different texts |
| `ToolTips.TipHtmlLines` | assets/js/app.js:134-136 | split at its `<br>` line breaks, the tooltip for a record has three lines: the state's name, then the X label and X value, then the Y label and Y value |
| `Selection.Initial` | assets/js/app.js:27-28 | no contract of its own: the start-up selection, scales, label classes (app.js:165-166, 208-261) and tooltip; stated by `Selection.InitialState` |
| `Selection.StepX` | assets/js/app.js:264-324 | no contract of its own: the X click handler on a state snapshot; stated by `Selection.SameLabelIsNoOp`, `Selection.ClickKeepsConsistent`, `Selection.AxesAreIndependent`, `Selection.SelectAgainRestores` and `Selection.RunIsCanonical` |
| `Selection.StepY` | assets/js/app.js:326-386 | no contract of its own: the Y click handler on a state snapshot; stated by the same lemmas as `Selection.StepX` |
| `Selection.XStyle` | assets/js/app.js:292-322 | after the X restyling chain, the label of the chosen field is active, the other two X labels are not, and every label's two classes are complements |
| `Selection.YStyle` | assets/js/app.js:354-384 | after the Y restyling chain, the label of the chosen field is active, the other two Y labels are not, and every label's two classes are complements |
| `Selection.XStyledForMeansOneActive` | assets/js/app.js:292-322 | both directions: the X invariant holds exactly when the set of active X labels is the chosen field alone and each label's classes are complements |
| `Selection.YStyledForMeansOneActive` | assets/js/app.js:354-384 | both directions: the Y invariant holds exactly when the set of active Y labels is the chosen field alone and each label's classes are complements |
| `Selection.XStyledForIsXStyle` | assets/js/app.js:292-322 | both directions: the only X label classes that satisfy the invariant for a field are those the chain produces for it |
| `Selection.YStyledForIsYStyle` | assets/js/app.js:354-384 | both directions: the only Y label classes that satisfy the invariant for a field are those the chain produces for it |
| `Selection.ConsistentIsCanonical` | assets/js/app.js:264-386 | both directions: a state is consistent exactly when it is the canonical state of its two chosen fields |
| `Selection.InitialState` | assets/js/app.js:208-258 | the start-up state is `(poverty, healthcare)`; exactly the poverty and healthcare labels are active; the invariant holds |
| `Selection.SameLabelIsNoOp` | assets/js/app.js:264-386 | a click on the label of the field already chosen changes no field, no scale, no tooltip and no label class |
| `Selection.ClickIdempotent` | assets/js/app.js:264-386 | clicking the same label twice is the same as clicking it once |
| `Selection.ClickKeepsConsistent` | assets/js/app.js:264-386 | a click keeps the invariant; afterwards the clicked axis shows the clicked field, and that field's label is the only active one on the axis |
| `Selection.AxesAreIndependent` | assets/js/app.js:264-386 | an X click leaves the Y field, the Y labels, the Y scale and the Y half of the tooltip unchanged, and a Y click likewise leaves the X side unchanged |
| `Selection.ClicksCommute` | assets/js/app.js:264-386 | from any state, an X click and a Y click give the same state in either order |
| `Selection.SelectAgainRestores` | assets/js/app.js:264-386 | selecting field B and then the original field A again restores A's scale, labels and tooltip |
| `Selection.RunIsCanonical` | assets/js/app.js:264-386 | after any sequence of clicks, the state is the canonical one for the last X click and the last Y click: one of nine states, each a function of the data and the two fields alone |
| `Selection.TwoRecordSession` | assets/js/app.js:31-53 | with two records, the start-up domains are `[9, 22]` for poverty and `[3.75, 15.75]` for healthcare; after a click on `age` the X domain is `[27, 44]`, the age label is the only active X label, and the Y scale is unchanged |
| `ScatterChart.Chart.constructor` | assets/js/app.js:27-261 | start-up: the initial selection, its scales and tooltip, and the six labels' classes; the result is the initial state and satisfies the invariant |
| `ScatterChart.Chart.RestyleXLabels` | assets/js/app.js:292-322 | the in-place class toggling of the three X labels, which ends in the chain's classes for `chosenXAxis` |
| `ScatterChart.Chart.RestyleYLabels` | assets/js/app.js:354-384 | the in-place class toggling of the three Y labels, which ends in the chain's classes for `chosenYAxis` |
| `ScatterChart.Chart.ClickX` | assets/js/app.js:264-324 | the X click handler keeps the invariant; its new state is `StepX` of the old one; it sets `chosenXAxis` to the clicked value and leaves the Y field, the Y scale and the Y labels unchanged |
| `ScatterChart.Chart.ClickY` | assets/js/app.js:326-386 | the Y click handler keeps the invariant; its new state is `StepY` of the old one; it sets `chosenYAxis` to the clicked value and leaves the X field, the X scale and the X labels unchanged |

## Left out

- SVG and DOM construction are left out: the `svg` and `chartGroup` elements, the `transform` strings and the label positions. This is layout through a library that is not part of this model.
- Axis rendering is left out: `renderXAxes`, `renderYAxes`, `d3.axisBottom`, `d3.axisLeft` and the 1000 ms transitions. These are animation inside a foreign library.
- The interpolation of `d3.scaleLinear` is left out. A `Scale` holds only the domain and range that the code supplies; no pixel mapping is modelled.
- `renderXCircles`, `renderYCircles`, `renderXLabels` and `renderYLabels` are left out. They only pass `scale(d[field])` into D3 transitions. The circle labels' Y value is offset by `-.2` on update but by `-.22` at creation; this difference is not modelled.
- The mouse handling is left out: `d3.tip` creation with its offset, `show`/`hide`, and the `mouseover`/`mouseout` registration. These are callbacks into an external plugin. Only the tooltip's content is modelled.
- Data loading is left out: the asynchronous CSV load and the unary `+` coercion of the six metrics. This is I/O, and NaN from text that is not numeric is not modelled. Records hold exact real values.
- The two `console.log` calls are left out.
- Floating point is left out. The padding products such as `min * 0.9` are exact products of reals, not binary64 results.
- Number formatting is left out. JavaScript's number-to-string conversion inside the tooltip template is the parameter `show` of `ToolTips.TipHtml`.
- The handlers read the clicked label's `value` attribute as a string. The model passes an `XField` or `YField` instead, because each label group holds only the three labels whose values name its fields.
- ToolTips.TipHtmlLines: stated only for state names and rendered values that contain no `<`, since a `<br>` inside them would add lines.
- Scales.XDomainCovers: stated only when the chosen field is non-negative in every record; `Scales.NegativeValueInvertsXDomain` shows that the containment fails otherwise.
- Scales.YDomainCovers: stated only when the chosen field is non-negative in every record, for the same reason.
