/** The chart's mutable state as the page holds it: the chosen fields, the
    current scales and tooltip, and the classes of the six axis labels, with the
    two click handlers that update them in place. */
module ScatterChart {
  import opened Demographics
  import opened Scales
  import opened ToolTips
  import opened Selection

  class Chart {
    /** The dataset, loaded once and never changed. */
    const data: seq<Record>

    var chosenXAxis: XField
    var chosenYAxis: YField
    var xLinearScale: Scale
    var yLinearScale: Scale
    var toolTip: ToolTip

    // The `active` and `inactive` classes of the three X label elements.
    var povertyLabel: LabelClass
    var ageLabel: LabelClass
    var incomeLabel: LabelClass

    // The `active` and `inactive` classes of the three Y label elements.
    var healthcareLabel: LabelClass
    var smokesLabel: LabelClass
    var obesityLabel: LabelClass

    ghost function XLabelClasses(): XLabels
      reads this
    {
      XLabels(povertyLabel, ageLabel, incomeLabel)
    }

    ghost function YLabelClasses(): YLabels
      reads this
    {
      YLabels(healthcareLabel, smokesLabel, obesityLabel)
    }

    /** The abstract value of the chart. */
    ghost function State(): ChartState
      reads this
    {
      ChartState(chosenXAxis, chosenYAxis, XLabelClasses(), YLabelClasses(),
        xLinearScale, yLinearScale, toolTip)
    }

    ghost predicate Valid()
      reads this
    {
      Consistent(data, State())
    }

    /** Start-up once the data is loaded: the initial selection, the initial
        scales, the six labels with the class each is created with, and the
        first tooltip. */
    constructor (demoData: seq<Record>)
      ensures data == demoData
      ensures Valid()
      ensures State() == Initial(demoData)
    {
      data := demoData;
      chosenXAxis := Poverty;
      chosenYAxis := Healthcare;
      xLinearScale := XScale(demoData, Poverty);
      yLinearScale := YScale(demoData, Healthcare);
      povertyLabel := LabelClass(true, false);
      ageLabel := LabelClass(false, true);
      incomeLabel := LabelClass(false, true);
      healthcareLabel := LabelClass(true, false);
      smokesLabel := LabelClass(false, true);
      obesityLabel := LabelClass(false, true);
      toolTip := UpdateToolTip(Poverty, Healthcare);
      InitialState(demoData);
    }

    /** The class-toggle chain of the X click handler: restyles the three X
        labels so that the one for `chosenXAxis` is active and the others inactive. */
    method RestyleXLabels()
      modifies this`povertyLabel, this`ageLabel, this`incomeLabel
      ensures XLabelClasses() == XStyle(chosenXAxis)
    {
      if chosenXAxis == Poverty {
        povertyLabel := LabelClass(true, false);
        ageLabel := LabelClass(false, true);
        incomeLabel := LabelClass(false, true);
      } else if chosenXAxis == Age {
        povertyLabel := LabelClass(false, true);
        ageLabel := LabelClass(true, false);
        incomeLabel := LabelClass(false, true);
      } else {
        povertyLabel := LabelClass(false, true);
        ageLabel := LabelClass(false, true);
        incomeLabel := LabelClass(true, false);
      }
    }

    /** The class-toggle chain of the Y click handler: restyles the three Y
        labels so that the one for `chosenYAxis` is active and the others inactive. */
    method RestyleYLabels()
      modifies this`healthcareLabel, this`smokesLabel, this`obesityLabel
      ensures YLabelClasses() == YStyle(chosenYAxis)
    {
      if chosenYAxis == Healthcare {
        healthcareLabel := LabelClass(true, false);
        smokesLabel := LabelClass(false, true);
        obesityLabel := LabelClass(false, true);
      } else if chosenYAxis == Smokes {
        healthcareLabel := LabelClass(false, true);
        smokesLabel := LabelClass(true, false);
        obesityLabel := LabelClass(false, true);
      } else {
        healthcareLabel := LabelClass(false, true);
        smokesLabel := LabelClass(false, true);
        obesityLabel := LabelClass(true, false);
      }
    }

    /** The click handler of the X labels, `value` being the clicked label's field:
        nothing happens when it is the chosen field; otherwise the field, the X
        scale and the tooltip are replaced and the X labels restyled. */
    method ClickX(value: XField)
      requires Valid()
      modifies this
      ensures Valid()
      ensures State() == StepX(data, old(State()), value)
      ensures chosenXAxis == value
      ensures chosenYAxis == old(chosenYAxis) && yLinearScale == old(yLinearScale)
      ensures YLabelClasses() == old(YLabelClasses())
    {
      ghost var before := State();
      if value != chosenXAxis {
        chosenXAxis := value;
        xLinearScale := XScale(data, chosenXAxis);
        toolTip := UpdateToolTip(chosenXAxis, chosenYAxis);
        RestyleXLabels();
      }
      ClickKeepsConsistent(data, before, XClick(value));
    }

    /** The click handler of the Y labels, `value` being the clicked label's field:
        nothing happens when it is the chosen field; otherwise the field, the Y
        scale and the tooltip are replaced and the Y labels restyled. */
    method ClickY(value: YField)
      requires Valid()
      modifies this
      ensures Valid()
      ensures State() == StepY(data, old(State()), value)
      ensures chosenYAxis == value
      ensures chosenXAxis == old(chosenXAxis) && xLinearScale == old(xLinearScale)
      ensures XLabelClasses() == old(XLabelClasses())
    {
      ghost var before := State();
      if value != chosenYAxis {
        chosenYAxis := value;
        yLinearScale := YScale(data, chosenYAxis);
        toolTip := UpdateToolTip(chosenXAxis, chosenYAxis);
        RestyleYLabels();
      }
      ClickKeepsConsistent(data, before, YClick(value));
    }
  }
}
