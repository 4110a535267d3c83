/** The series factory of `Graph._getSeries`: a type name picks the series
    class a descriptor is built with. */
module SeriesFactory {

  import opened Wrappers

  /** The series classes `_getSeries` can return. */
  datatype SeriesClass =
    | CartesianSeries
    | LineSeries | ColumnSeries | BarSeries | AreaSeries
    | CandlestickSeries | OHLCSeries
    | StackedAreaSeries | StackedLineSeries | StackedColumnSeries | StackedBarSeries
    | MarkerSeries | SplineSeries | AreaSplineSeries
    | StackedSplineSeries | StackedAreaSplineSeries | StackedMarkerSeries
    | PieSeries
    | ComboSeries | StackedComboSeries | ComboSplineSeries | StackedComboSplineSeries

  /** The twenty-one type names the switch recognises, in the order of its cases. */
  const TypeNames: seq<string> := [
    "line", "column", "bar", "area", "candlestick", "ohlc",
    "stackedarea", "stackedline", "stackedcolumn", "stackedbar",
    "markerseries", "spline", "areaspline", "stackedspline",
    "stackedareaspline", "stackedmarkerseries", "pie",
    "combo", "stackedcombo", "combospline", "stackedcombospline"
  ]

  /** The name a class is selected by; `CartesianSeries` has none, it is the
      fallback. This is the partner of `ClassFor`. */
  function TypeName(c: SeriesClass): (name: Option<string>)
    ensures name.Some? <==> c != CartesianSeries
    ensures name.Some? ==> name.value in TypeNames
  {
    match c
    case CartesianSeries => None
    case LineSeries => Some("line")
    case ColumnSeries => Some("column")
    case BarSeries => Some("bar")
    case AreaSeries => Some("area")
    case CandlestickSeries => Some("candlestick")
    case OHLCSeries => Some("ohlc")
    case StackedAreaSeries => Some("stackedarea")
    case StackedLineSeries => Some("stackedline")
    case StackedColumnSeries => Some("stackedcolumn")
    case StackedBarSeries => Some("stackedbar")
    case MarkerSeries => Some("markerseries")
    case SplineSeries => Some("spline")
    case AreaSplineSeries => Some("areaspline")
    case StackedSplineSeries => Some("stackedspline")
    case StackedAreaSplineSeries => Some("stackedareaspline")
    case StackedMarkerSeries => Some("stackedmarkerseries")
    case PieSeries => Some("pie")
    case ComboSeries => Some("combo")
    case StackedComboSeries => Some("stackedcombo")
    case ComboSplineSeries => Some("combospline")
    case StackedComboSplineSeries => Some("stackedcombospline")
  }

  /** `_getSeries(type)`: total; a recognised name gives the class it names,
      any other string gives `CartesianSeries`. */
  function ClassFor(t: string): (c: SeriesClass)
    ensures c != CartesianSeries ==> TypeName(c) == Some(t)
    ensures t !in TypeNames ==> c == CartesianSeries
  {
    match t
    case "line" => LineSeries
    case "column" => ColumnSeries
    case "bar" => BarSeries
    case "area" => AreaSeries
    case "candlestick" => CandlestickSeries
    case "ohlc" => OHLCSeries
    case "stackedarea" => StackedAreaSeries
    case "stackedline" => StackedLineSeries
    case "stackedcolumn" => StackedColumnSeries
    case "stackedbar" => StackedBarSeries
    case "markerseries" => MarkerSeries
    case "spline" => SplineSeries
    case "areaspline" => AreaSplineSeries
    case "stackedspline" => StackedSplineSeries
    case "stackedareaspline" => StackedAreaSplineSeries
    case "stackedmarkerseries" => StackedMarkerSeries
    case "pie" => PieSeries
    case "combo" => ComboSeries
    case "stackedcombo" => StackedComboSeries
    case "combospline" => ComboSplineSeries
    case "stackedcombospline" => StackedComboSplineSeries
    case _ => CartesianSeries
  }

  /** Each of the recognised names selects a class other than the fallback. */
  lemma RecognisedNames(t: string)
    requires t in TypeNames
    ensures ClassFor(t) != CartesianSeries
  {
  }

  /** Every class but the fallback is reached from exactly its own name. */
  lemma ClassForRoundTrip(c: SeriesClass)
    requires c != CartesianSeries
    ensures ClassFor(TypeName(c).value) == c
  {
  }

  /** Distinct recognised names select distinct classes. */
  lemma ClassForInjective(t1: string, t2: string)
    requires t1 in TypeNames && t2 in TypeNames && t1 != t2
    ensures ClassFor(t1) != ClassFor(t2)
  {
    RecognisedNames(t1);
    RecognisedNames(t2);
  }
}
