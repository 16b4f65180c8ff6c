/** The dataset of the scatter plot: one record per U.S. state, and the six
    numeric fields that the two axes can be bound to. */
module Demographics {

  /** The fields the X axis can show: the `value` attributes of the three X labels. */
  datatype XField = Poverty | Age | Income

  /** The fields the Y axis can show: the `value` attributes of the three Y labels. */
  datatype YField = Healthcare | Smokes | Obesity

  /** One row of the dataset, its six metrics already coerced to numbers. */
  datatype Record = Record(
    state: string,
    abbr: string,
    poverty: real,
    age: real,
    income: real,
    healthcare: real,
    smokes: real,
    obesity: real)

  /** `d[chosenXAxis]`: the value of an X field in one record. */
  function XValue(d: Record, f: XField): real
  {
    match f
    case Poverty => d.poverty
    case Age => d.age
    case Income => d.income
  }

  /** `d[chosenYAxis]`: the value of a Y field in one record. */
  function YValue(d: Record, f: YField): real
  {
    match f
    case Healthcare => d.healthcare
    case Smokes => d.smokes
    case Obesity => d.obesity
  }

  /** The accessor `d => d[f]` applied to every record, in dataset order. */
  function XColumn(data: seq<Record>, f: XField): seq<real>
  {
    seq(|data|, i requires 0 <= i < |data| => XValue(data[i], f))
  }

  /** The accessor `d => d[f]` applied to every record, in dataset order. */
  function YColumn(data: seq<Record>, f: YField): seq<real>
  {
    seq(|data|, i requires 0 <= i < |data| => YValue(data[i], f))
  }
}
