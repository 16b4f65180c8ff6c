/** The text of the hover tooltip: a label per axis chosen from the selected
    fields, and an HTML string of three lines for one record. */
module ToolTips {
  import opened Demographics

  /** The X label text, chosen by an if/else-if/else chain whose last branch
      stands for `income`. */
  function XLabelText(f: XField): string
  {
    if f == Poverty then "Poverty (%):"
    else if f == Age then "Age :"
    else "Income ($):"
  }

  /** The Y label text, chosen by an if/else-if/else chain whose last branch
      stands for `obesity`. */
  function YLabelText(f: YField): string
  {
    if f == Healthcare then "Healthcare (%):"
    else if f == Smokes then "Smokes (%):"
    else "Obesity (%):"
  }

  /** A tooltip as bound to the circles: the two label texts and the two fields
      whose values it shows, all fixed when it is built. */
  datatype ToolTip = ToolTip(xLabel: string, yLabel: string, xField: XField, yField: YField)

  /** `updateToolTip(chosenXAxis, chosenYAxis, circlesGroup)`, as far as the
      tooltip's content goes. */
  function UpdateToolTip(x: XField, y: YField): ToolTip
  {
    ToolTip(XLabelText(x), YLabelText(y), x, y)
  }

  const LineBreak: string := "<br>"

  /** The HTML the tooltip shows for record `d`. `show` renders a number as text. */
  function TipHtml(t: ToolTip, d: Record, show: real -> string): string
  {
    d.state + LineBreak + t.xLabel + " " + show(XValue(d, t.xField))
      + LineBreak + t.yLabel + " " + show(YValue(d, t.yField))
  }

  /** A text that cannot contain a tag, in particular no line break. */
  predicate NoTag(s: string)
  {
    '<' !in s
  }

  /** The lines of an HTML text: the pieces between consecutive line breaks. */
  function SplitLines(s: string): (lines: seq<string>)
    ensures |lines| > 0
    decreases |s|
  {
    if |s| == 0 then [""]
    else if |s| >= |LineBreak| && s[..|LineBreak|] == LineBreak then [""] + SplitLines(s[|LineBreak|..])
    else
      var rest := SplitLines(s[1..]);
      [[s[0]] + rest[0]] + rest[1..]
  }

  /** The three X label texts are pairwise different, so the label identifies the field. */
  lemma XLabelTextInjective(a: XField, b: XField)
    ensures XLabelText(a) == XLabelText(b) ==> a == b
  {
  }

  /** The three Y label texts are pairwise different, so the label identifies the field. */
  lemma YLabelTextInjective(a: YField, b: YField)
    ensures YLabelText(a) == YLabelText(b) ==> a == b
  {
  }

  /** A text without a tag is a single line. */
  lemma {:induction false} SplitTagless(a: string)
    requires NoTag(a)
    ensures SplitLines(a) == [a]
    decreases |a|
  {
    if |a| > 0 {
      assert a[0] != '<';
      SplitTagless(a[1..]);
      assert [a[0]] + a[1..] == a;
    }
  }

  /** A tagless first line is split off at the first line break. */
  lemma {:induction false} SplitJoined(a: string, b: string)
    requires NoTag(a)
    ensures SplitLines(a + LineBreak + b) == [a] + SplitLines(b)
    decreases |a|
  {
    var s := a + LineBreak + b;
    if |a| == 0 {
      assert s == LineBreak + b;
      assert s[..|LineBreak|] == LineBreak;
      assert s[|LineBreak|..] == b;
    } else {
      assert s[0] == a[0] != '<';
      assert s[1..] == a[1..] + LineBreak + b;
      SplitJoined(a[1..], b);
      assert [a[0]] + a[1..] == a;
    }
  }

  /** Joining two tagless texts gives a tagless text. */
  lemma NoTagConcat(a: string, b: string)
    requires NoTag(a) && NoTag(b)
    ensures NoTag(a + b)
  {
  }

  /** The label texts, followed by the separating space, hold no tag. */
  lemma LabelTextsAreTagless(x: XField, y: YField)
    ensures NoTag(XLabelText(x) + " ") && NoTag(YLabelText(y) + " ")
  {
  }

  /** The tooltip for record `d` reads, line by line: the state's name, the X label
      with the record's X value, and the Y label with the record's Y value. */
  lemma TipHtmlLines(x: XField, y: YField, d: Record, show: real -> string)
    requires NoTag(d.state)
    requires NoTag(show(XValue(d, x))) && NoTag(show(YValue(d, y)))
    ensures SplitLines(TipHtml(UpdateToolTip(x, y), d, show))
      == [d.state, XLabelText(x) + " " + show(XValue(d, x)), YLabelText(y) + " " + show(YValue(d, y))]
  {
    var xHead, xText := XLabelText(x) + " ", show(XValue(d, x));
    var yHead, yText := YLabelText(y) + " ", show(YValue(d, y));
    var xLine, yLine := xHead + xText, yHead + yText;
    LabelTextsAreTagless(x, y);
    NoTagConcat(xHead, xText);
    NoTagConcat(yHead, yText);
    var rest := xLine + LineBreak + yLine;
    assert TipHtml(UpdateToolTip(x, y), d, show) == d.state + LineBreak + rest;
    SplitJoined(d.state, rest);
    SplitJoined(xLine, yLine);
    SplitTagless(yLine);
  }
}
