/** The selection state machine as pure values: which field each axis shows,
    the `active`/`inactive` classes of the six axis labels, the two scales and
    the tooltip, and what a click on a label does to them. */
module Selection {
  import opened Demographics
  import opened Scales
  import opened ToolTips

  /** The two style classes of one axis label. */
  datatype LabelClass = LabelClass(active: bool, inactive: bool)

  /** `.classed("active", true).classed("inactive", false)` */
  const Highlighted := LabelClass(true, false)
  /** `.classed("active", false).classed("inactive", true)` */
  const Dimmed := LabelClass(false, true)

  /** The classes of the poverty, age and income labels. */
  datatype XLabels = XLabels(poverty: LabelClass, age: LabelClass, income: LabelClass)
  /** The classes of the healthcare, smokes and obesity labels. */
  datatype YLabels = YLabels(healthcare: LabelClass, smokes: LabelClass, obesity: LabelClass)

  /** The fields whose X label carries the `active` class. */
  function ActiveX(l: XLabels): set<XField>
  {
    (if l.poverty.active then {Poverty} else {})
      + (if l.age.active then {Age} else {})
      + (if l.income.active then {Income} else {})
  }

  /** The fields whose Y label carries the `active` class. */
  function ActiveY(l: YLabels): set<YField>
  {
    (if l.healthcare.active then {Healthcare} else {})
      + (if l.smokes.active then {Smokes} else {})
      + (if l.obesity.active then {Obesity} else {})
  }

  /** Every X label carries exactly one of its two classes. */
  predicate XComplementary(l: XLabels)
  {
    l.poverty.inactive == !l.poverty.active
      && l.age.inactive == !l.age.active
      && l.income.inactive == !l.income.active
  }

  /** Every Y label carries exactly one of its two classes. */
  predicate YComplementary(l: YLabels)
  {
    l.healthcare.inactive == !l.healthcare.active
      && l.smokes.inactive == !l.smokes.active
      && l.obesity.inactive == !l.obesity.active
  }

  /** The label of `f` is the active X label and the other two are not, and
      each label's two classes are complements. */
  predicate XStyledFor(l: XLabels, f: XField)
  {
    (l.poverty.active <==> f == Poverty)
      && (l.age.active <==> f == Age)
      && (l.income.active <==> f == Income)
      && XComplementary(l)
  }

  /** The label of `f` is the active Y label and the other two are not, and
      each label's two classes are complements. */
  predicate YStyledFor(l: YLabels, f: YField)
  {
    (l.healthcare.active <==> f == Healthcare)
      && (l.smokes.active <==> f == Smokes)
      && (l.obesity.active <==> f == Obesity)
      && YComplementary(l)
  }

  /** The restyling chain of the X click handler, selected by equality with the
      new field. */
  function XStyle(f: XField): (l: XLabels)
    ensures XStyledFor(l, f)
  {
    if f == Poverty then XLabels(Highlighted, Dimmed, Dimmed)
    else if f == Age then XLabels(Dimmed, Highlighted, Dimmed)
    else XLabels(Dimmed, Dimmed, Highlighted)
  }

  /** The restyling chain of the Y click handler, selected by equality with the
      new field. */
  function YStyle(f: YField): (l: YLabels)
    ensures YStyledFor(l, f)
  {
    if f == Healthcare then YLabels(Highlighted, Dimmed, Dimmed)
    else if f == Smokes then YLabels(Dimmed, Highlighted, Dimmed)
    else YLabels(Dimmed, Dimmed, Highlighted)
  }

  /** Everything a label click reads or writes. */
  datatype ChartState = ChartState(
    x: XField,
    y: YField,
    xLabels: XLabels,
    yLabels: YLabels,
    xScale: Scale,
    yScale: Scale,
    tip: ToolTip)

  /** The invariant of the chart: the labels show the chosen fields, and the
      scales and the tooltip are the ones computed from the chosen fields. */
  ghost predicate Consistent(data: seq<Record>, s: ChartState)
  {
    XStyledFor(s.xLabels, s.x)
      && YStyledFor(s.yLabels, s.y)
      && s.xScale == XScale(data, s.x)
      && s.yScale == YScale(data, s.y)
      && s.tip == UpdateToolTip(s.x, s.y)
  }

  /** The state after start-up: poverty against healthcare. Each X label receives
      only the class it is created with, the other one being absent; the Y labels
      have both classes set explicitly. */
  function Initial(data: seq<Record>): ChartState
  {
    ChartState(
      Poverty,
      Healthcare,
      XLabels(LabelClass(true, false), LabelClass(false, true), LabelClass(false, true)),
      YLabels(LabelClass(true, false), LabelClass(false, true), LabelClass(false, true)),
      XScale(data, Poverty),
      YScale(data, Healthcare),
      UpdateToolTip(Poverty, Healthcare))
  }

  /** A click on the X label whose `value` is `v`. */
  function StepX(data: seq<Record>, s: ChartState, v: XField): ChartState
  {
    if v == s.x then s
    else s.(x := v, xScale := XScale(data, v), tip := UpdateToolTip(v, s.y), xLabels := XStyle(v))
  }

  /** A click on the Y label whose `value` is `v`. */
  function StepY(data: seq<Record>, s: ChartState, v: YField): ChartState
  {
    if v == s.y then s
    else s.(y := v, yScale := YScale(data, v), tip := UpdateToolTip(s.x, v), yLabels := YStyle(v))
  }

  /** A click on one of the six axis labels, tagged with the label's `value`. */
  datatype Click = XClick(xValue: XField) | YClick(yValue: YField)

  function Step(data: seq<Record>, s: ChartState, c: Click): ChartState
  {
    match c
    case XClick(v) => StepX(data, s, v)
    case YClick(v) => StepY(data, s, v)
  }

  /** The state after a session's clicks, in order. */
  function Run(data: seq<Record>, s: ChartState, clicks: seq<Click>): ChartState
    decreases |clicks|
  {
    if clicks == [] then s else Run(data, Step(data, s, clicks[0]), clicks[1..])
  }

  /** The X field of the last X click, or `x` when there is none. */
  function LastX(clicks: seq<Click>, x: XField): XField
    decreases |clicks|
  {
    if clicks == [] then x
    else LastX(clicks[1..], if clicks[0].XClick? then clicks[0].xValue else x)
  }

  /** The Y field of the last Y click, or `y` when there is none. */
  function LastY(clicks: seq<Click>, y: YField): YField
    decreases |clicks|
  {
    if clicks == [] then y
    else LastY(clicks[1..], if clicks[0].YClick? then clicks[0].yValue else y)
  }

  /** The one consistent state with X field `x` and Y field `y`. */
  function Canonical(data: seq<Record>, x: XField, y: YField): ChartState
  {
    ChartState(x, y, XStyle(x), YStyle(y), XScale(data, x), YScale(data, y), UpdateToolTip(x, y))
  }

  /** The X invariant says that exactly one X label is active, that it is the
      label of `f`, and that each label's two classes are complements. */
  lemma XStyledForMeansOneActive(l: XLabels, f: XField)
    ensures XStyledFor(l, f) <==> ActiveX(l) == {f} && XComplementary(l)
  {
  }

  /** The Y invariant says that exactly one Y label is active, that it is the
      label of `f`, and that each label's two classes are complements. */
  lemma YStyledForMeansOneActive(l: YLabels, f: YField)
    ensures YStyledFor(l, f) <==> ActiveY(l) == {f} && YComplementary(l)
  {
  }

  /** The label classes that satisfy the X invariant for `f` are exactly the ones
      the restyling chain produces for `f`. */
  lemma XStyledForIsXStyle(l: XLabels, f: XField)
    ensures XStyledFor(l, f) <==> l == XStyle(f)
  {
  }

  /** The label classes that satisfy the Y invariant for `f` are exactly the ones
      the restyling chain produces for `f`. */
  lemma YStyledForIsYStyle(l: YLabels, f: YField)
    ensures YStyledFor(l, f) <==> l == YStyle(f)
  {
  }

  /** A consistent state is determined by its two chosen fields. */
  lemma ConsistentIsCanonical(data: seq<Record>, s: ChartState)
    ensures Consistent(data, s) <==> s == Canonical(data, s.x, s.y)
  {
  }

  /** At start-up the chart shows poverty against healthcare, exactly the poverty
      and healthcare labels are active, and the invariant holds. */
  lemma InitialState(data: seq<Record>)
    ensures Initial(data).x == Poverty && Initial(data).y == Healthcare
    ensures ActiveX(Initial(data).xLabels) == {Poverty}
    ensures ActiveY(Initial(data).yLabels) == {Healthcare}
    ensures Consistent(data, Initial(data))
    ensures Initial(data) == Canonical(data, Poverty, Healthcare)
  {
  }

  /** Clicking the label of the field already chosen changes nothing. */
  lemma SameLabelIsNoOp(data: seq<Record>, s: ChartState)
    ensures StepX(data, s, s.x) == s
    ensures StepY(data, s, s.y) == s
  {
  }

  /** Clicking the same label twice is the same as clicking it once. */
  lemma ClickIdempotent(data: seq<Record>, s: ChartState, c: Click)
    ensures Step(data, Step(data, s, c), c) == Step(data, s, c)
  {
  }

  /** A click keeps the invariant and leaves its axis showing the clicked field,
      with that field's label the only active one on the axis. */
  lemma ClickKeepsConsistent(data: seq<Record>, s: ChartState, c: Click)
    requires Consistent(data, s)
    ensures Consistent(data, Step(data, s, c))
    ensures c.XClick? ==> Step(data, s, c).x == c.xValue && ActiveX(Step(data, s, c).xLabels) == {c.xValue}
    ensures c.YClick? ==> Step(data, s, c).y == c.yValue && ActiveY(Step(data, s, c).yLabels) == {c.yValue}
  {
  }

  /** An X click never touches the Y field, the Y labels or the Y scale; of the
      tooltip, it keeps the Y label text and the Y field. A Y click likewise
      leaves the X side alone. */
  lemma AxesAreIndependent(data: seq<Record>, s: ChartState, vx: XField, vy: YField)
    requires Consistent(data, s)
    ensures var t := StepX(data, s, vx);
      t.y == s.y && t.yLabels == s.yLabels && t.yScale == s.yScale
      && t.tip.yLabel == s.tip.yLabel && t.tip.yField == s.tip.yField
    ensures var t := StepY(data, s, vy);
      t.x == s.x && t.xLabels == s.xLabels && t.xScale == s.xScale
      && t.tip.xLabel == s.tip.xLabel && t.tip.xField == s.tip.xField
  {
  }

  /** X and Y clicks commute, from any state. */
  lemma ClicksCommute(data: seq<Record>, s: ChartState, vx: XField, vy: YField)
    ensures StepY(data, StepX(data, s, vx), vy) == StepX(data, StepY(data, s, vy), vx)
  {
  }

  /** Selecting another field and then the original one again restores the
      original scale, labels and tooltip: nothing accumulates. */
  lemma SelectAgainRestores(data: seq<Record>, s: ChartState, vx: XField, vy: YField)
    requires Consistent(data, s)
    ensures StepX(data, StepX(data, s, vx), s.x) == s
    ensures StepY(data, StepY(data, s, vy), s.y) == s
  {
  }

  /** After any sequence of clicks from a consistent state, the state is the
      consistent one for the last X click and the last Y click: one of nine
      states, each a function of the data and the two fields alone. */
  lemma {:induction false} RunIsCanonical(data: seq<Record>, s: ChartState, clicks: seq<Click>)
    requires Consistent(data, s)
    ensures Run(data, s, clicks) == Canonical(data, LastX(clicks, s.x), LastY(clicks, s.y))
    decreases |clicks|
  {
    if clicks == [] {
      ConsistentIsCanonical(data, s);
    } else {
      var t := Step(data, s, clicks[0]);
      ClickKeepsConsistent(data, s, clicks[0]);
      assert t.x == (if clicks[0].XClick? then clicks[0].xValue else s.x);
      assert t.y == (if clicks[0].YClick? then clicks[0].yValue else s.y);
      RunIsCanonical(data, t, clicks[1..]);
    }
  }

  /** A two-record session: the domains at start-up, and the X domain and active
      X label after a click on the `age` label. */
  lemma TwoRecordSession()
    ensures var data := [Record("X", "XX", 10.0, 30.0, 0.0, 5.0, 0.0, 0.0),
                         Record("Y", "YY", 20.0, 40.0, 0.0, 15.0, 0.0, 0.0)];
      var after := StepX(data, Initial(data), Age);
      Initial(data).xScale.domain == Interval(9.0, 22.0) &&
      Initial(data).yScale.domain == Interval(3.75, 15.75) &&
      after.xScale.domain == Interval(27.0, 44.0) &&
      ActiveX(after.xLabels) == {Age} &&
      after.yScale == Initial(data).yScale
  {
  }
}
