/** Visualisation suggestions: the closed set of chart types, the suggestion
    record, and its serialised (dictionary) form. */
module Suggestions {
  import opened Text

  /** The ten supported chart types. */
  datatype VizType =
    | BarChart | LineChart | ScatterPlot | Heatmap | PieChart
    | AreaChart | Histogram | BoxPlot | Treemap | BubbleChart
  {
    /** The enum member's string value. */
    function Tag(): string
    {
      match this
      case BarChart => "bar_chart"
      case LineChart => "line_chart"
      case ScatterPlot => "scatter_plot"
      case Heatmap => "heatmap"
      case PieChart => "pie_chart"
      case AreaChart => "area_chart"
      case Histogram => "histogram"
      case BoxPlot => "box_plot"
      case Treemap => "treemap"
      case BubbleChart => "bubble_chart"
    }
  }

  /** `VizType(tag)`: the member whose value is `tag`; any other string is
      rejected (a ValueError in the original). */
  function VizTypeFromTag(tag: string): (r: Option<VizType>)
    ensures r.Some? ==> r.value.Tag() == tag
  {
    if tag == "bar_chart" then Some(BarChart)
    else if tag == "line_chart" then Some(LineChart)
    else if tag == "scatter_plot" then Some(ScatterPlot)
    else if tag == "heatmap" then Some(Heatmap)
    else if tag == "pie_chart" then Some(PieChart)
    else if tag == "area_chart" then Some(AreaChart)
    else if tag == "histogram" then Some(Histogram)
    else if tag == "box_plot" then Some(BoxPlot)
    else if tag == "treemap" then Some(Treemap)
    else if tag == "bubble_chart" then Some(BubbleChart)
    else None
  }

  /** Every member's value is accepted back, so the values are distinct. */
  lemma TagRoundTrip(v: VizType)
    ensures VizTypeFromTag(v.Tag()) == Some(v)
  {
  }

  lemma TagInjective(v: VizType, w: VizType)
    ensures v.Tag() == w.Tag() ==> v == w
  {
    TagRoundTrip(v);
    TagRoundTrip(w);
  }

  /** A value of the field-to-encoding mapping: a field name, a list of field
      names, a boolean flag, or `None`. */
  datatype MapValue = Field(name: string) | Fields(names: seq<string>) | Flag(flag: bool) | NoField
  {
    /** Python truthiness of the value. */
    predicate Truthy()
    {
      match this
      case Field(name) => name != ""
      case Fields(names) => names != []
      case Flag(flag) => flag
      case NoField => false
    }
  }

  type DataMapping = map<string, MapValue>

  /** A suggestion.  `id` stands for the random identifier drawn when it was
      made; `confidence` is in hundredths (75 stands for 0.75). */
  datatype VizSuggestion = VizSuggestion(
    id: nat,
    vizType: VizType,
    title: string,
    description: string,
    rationale: string,
    confidence: nat,
    dataMapping: DataMapping,
    originalWorksheet: string,
    improvements: seq<string>)

  /** The dictionary a suggestion is serialised to: the same nine fields, with
      the chart type as its string value. */
  datatype SerializedSuggestion = SerializedSuggestion(
    id: nat,
    vizType: string,
    title: string,
    description: string,
    rationale: string,
    confidence: nat,
    dataMapping: DataMapping,
    originalWorksheet: string,
    improvements: seq<string>)

  /** `_serialize_suggestion`. */
  function Serialize(s: VizSuggestion): SerializedSuggestion
  {
    SerializedSuggestion(s.id, s.vizType.Tag(), s.title, s.description, s.rationale, s.confidence,
                         s.dataMapping, s.originalWorksheet, s.improvements)
  }

  /** Rebuilding a suggestion from its dictionary, as the desktop client does
      before exporting; fails when the chart type string is not a member. */
  function Rehydrate(d: SerializedSuggestion): Option<VizSuggestion>
  {
    match VizTypeFromTag(d.vizType)
    case None => None
    case Some(v) =>
      Some(VizSuggestion(d.id, v, d.title, d.description, d.rationale, d.confidence, d.dataMapping,
                         d.originalWorksheet, d.improvements))
  }

  /** Serialisation loses nothing: rebuilding gives back the suggestion, and a
      dictionary that rebuilds is the serialisation of what it rebuilds to. */
  lemma RoundTrip(s: VizSuggestion, d: SerializedSuggestion)
    ensures Rehydrate(Serialize(s)) == Some(s)
    ensures Rehydrate(d).Some? ==> Serialize(Rehydrate(d).value) == d
  {
    TagRoundTrip(s.vizType);
  }

  /** Serialisation is injective: distinct suggestions give distinct
      dictionaries. */
  lemma SerializeInjective(s: VizSuggestion, t: VizSuggestion)
    ensures Serialize(s) == Serialize(t) ==> s == t
  {
    RoundTrip(s, Serialize(s));
    RoundTrip(t, Serialize(t));
  }
}
