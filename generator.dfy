/** The visualisation generator: the chart configuration built for a
    suggestion, and its three export formats.  The chart templates are fixed
    literals set up once when the generator is made and never written again,
    so they are modelled as the function `TemplateFor`; the D3 code text and
    the styling (scales, axes, marks) inside them are not part of this
    model, only which chart type owns which code. */
module VizGenerator {
  import opened Text
  import opened Suggestions

  /** The plot margins of the rectangular templates and the generic
      configuration. */
  datatype Margin = Margin(top: nat, right: nat, bottom: nat, left: nat)

  const StandardMargin := Margin(20, 30, 40, 40)

  /** The radii a pie chart template carries. */
  datatype Radius = Radius(outer: nat, inner: nat)

  /** The D3 program of a template, standing for the code text of the chart
      type it was written for. */
  datatype D3Code = D3Code(chart: VizType)

  /** A stored template: its 'type' string, its size, its margin and radius
      when it has them, and its D3 program. */
  datatype Template = Template(
    typeName: string, width: nat, height: nat,
    margin: Option<Margin>, radius: Option<Radius>, code: D3Code)

  /** The template dictionary keyed by chart type: seven of the ten chart
      types have one. */
  function TemplateFor(v: VizType): Option<Template>
  {
    match v
    case BarChart => Some(Template("bar_chart", 800, 400, Some(StandardMargin), None, D3Code(BarChart)))
    case LineChart => Some(Template("line_chart", 800, 400, Some(StandardMargin), None, D3Code(LineChart)))
    case ScatterPlot => Some(Template("scatter_plot", 800, 400, Some(StandardMargin), None, D3Code(ScatterPlot)))
    case PieChart => Some(Template("pie_chart", 400, 400, None, Some(Radius(150, 0)), D3Code(PieChart)))
    case Heatmap => Some(Template("heatmap", 800, 400, Some(StandardMargin), None, D3Code(Heatmap)))
    case Treemap => Some(Template("treemap", 800, 400, None, None, D3Code(Treemap)))
    case BubbleChart => Some(Template("bubble_chart", 800, 400, Some(StandardMargin), None, D3Code(BubbleChart)))
    case _ => None
  }

  /** Each template is filed under the chart type it names and carries that
      type's code; area charts, histograms and box plots have none. */
  lemma TemplatesMatchTheirType(v: VizType)
    ensures TemplateFor(v).Some? <==> v !in {AreaChart, Histogram, BoxPlot}
    ensures TemplateFor(v).Some? ==>
      TemplateFor(v).value.typeName == v.Tag() && TemplateFor(v).value.code == D3Code(v)
  {
  }

  /** A chart configuration: the template's entries, or the generic ones,
      together with the suggestion's data mapping, title and description.
      `code` is present exactly when the 'd3_code' key is, `message` exactly
      when the 'message' key is. */
  datatype D3Config = D3Config(
    typeName: string, width: nat, height: nat,
    margin: Option<Margin>, radius: Option<Radius>, code: Option<D3Code>,
    dataMapping: DataMapping, title: string, description: string,
    message: Option<string>)

  const GenericMessage := "Template not yet implemented for this visualization type"

  /** `_generate_generic_config`: an 800 by 400 chart with the standard
      margin and a message saying no template exists. */
  function GenericConfig(s: VizSuggestion): D3Config
  {
    D3Config(s.vizType.Tag(), 800, 400, Some(StandardMargin), None, None,
             s.dataMapping, s.title, s.description, Some(GenericMessage))
  }

  /** `generate_d3_config`: a copy of the chart type's template with the
      suggestion's mapping, title and description written in; the generic
      configuration when there is no template. */
  function GenerateD3Config(s: VizSuggestion): D3Config
  {
    match TemplateFor(s.vizType)
    case Some(t) =>
      D3Config(t.typeName, t.width, t.height, t.margin, t.radius, Some(t.code),
               s.dataMapping, s.title, s.description, None)
    case None => GenericConfig(s)
  }

  /** Whichever path is taken, the configuration names the suggestion's chart
      type and carries its mapping, title and description unchanged; it has
      code exactly when a template exists, and a message otherwise. */
  lemma GenerateD3ConfigCarries(s: VizSuggestion)
    ensures GenerateD3Config(s).typeName == s.vizType.Tag()
    ensures GenerateD3Config(s).dataMapping == s.dataMapping
    ensures GenerateD3Config(s).title == s.title && GenerateD3Config(s).description == s.description
    ensures GenerateD3Config(s).code.Some? <==> TemplateFor(s.vizType).Some?
    ensures GenerateD3Config(s).message.Some? <==> TemplateFor(s.vizType).None?
  {
    TemplatesMatchTheirType(s.vizType);
  }

  /** Only the pie chart template is square, and only the pie and treemap
      templates have no margin; every other configuration is 800 by 400. */
  lemma ConfigGeometry(s: VizSuggestion)
    ensures GenerateD3Config(s).height == 400
    ensures GenerateD3Config(s).width == if s.vizType == PieChart then 400 else 800
    ensures GenerateD3Config(s).margin.None? <==> s.vizType in {PieChart, Treemap}
    ensures GenerateD3Config(s).radius.Some? <==> s.vizType == PieChart
  {
  }

  /** Two suggestions alike in chart type, mapping, title and description get
      the same configuration: nothing else about a suggestion is read. */
  lemma ConfigDependsOnFourFields(s: VizSuggestion, t: VizSuggestion)
    requires s.vizType == t.vizType && s.dataMapping == t.dataMapping
    requires s.title == t.title && s.description == t.description
    ensures GenerateD3Config(s) == GenerateD3Config(t)
  {
  }

  // ---------------------------------------------------------------------------
  // Vega-Lite

  /** `_get_vega_mark_type`: the chart types without an entry get "point". */
  function VegaMarkType(v: VizType): string
  {
    match v
    case BarChart => "bar"
    case LineChart => "line"
    case ScatterPlot => "point"
    case PieChart => "arc"
    case Heatmap => "rect"
    case AreaChart => "area"
    case Histogram => "bar"
    case _ => "point"
  }

  /** The mark is one of six Vega-Lite marks; "point" is the scatter plot's
      mark and the default of the three types the table omits, and "bar" is
      shared by bar charts and histograms. */
  lemma VegaMarkTable(v: VizType)
    ensures VegaMarkType(v) in {"bar", "line", "point", "arc", "rect", "area"}
    ensures VegaMarkType(v) == "point" <==> v in {ScatterPlot, BoxPlot, Treemap, BubbleChart}
    ensures VegaMarkType(v) == "bar" <==> v in {BarChart, Histogram}
  {
  }

  /** One encoding channel: the mapped field and its measurement type. */
  datatype Channel = Channel(field: MapValue, measure: string)

  type Encoding = map<string, Channel>

  /** The four roles that become encoding channels. */
  const EncodedRoles: set<string> := {"x", "y", "color", "size"}

  /** The measurement type of each encoded role: "x" and "color" are
      nominal, "y" and "size" quantitative. */
  function MeasureOf(role: string): string
  {
    if role == "x" || role == "color" then "nominal" else "quantitative"
  }

  /** Adds channel `role` when the mapping has that role with a truthy
      value. */
  function WithChannel(encoding: Encoding, m: DataMapping, role: string, measure: string): Encoding
  {
    if role in m && m[role].Truthy() then encoding[role := Channel(m[role], measure)] else encoding
  }

  /** `_convert_to_vega_encoding`: the four conditional insertions, in the
      original's order. */
  function ConvertToVegaEncoding(m: DataMapping): Encoding
  {
    var withX := WithChannel(map[], m, "x", "nominal");
    var withY := WithChannel(withX, m, "y", "quantitative");
    var withColor := WithChannel(withY, m, "color", "nominal");
    WithChannel(withColor, m, "size", "quantitative")
  }

  /** The conversion is a filter: a channel exists exactly for each of the
      four roles the mapping holds with a truthy value, it carries the mapped
      value, and every other role (angle, hierarchy, bins, stack, ...) is
      dropped. */
  lemma VegaEncodingFilter(m: DataMapping)
    ensures ConvertToVegaEncoding(m).Keys <= EncodedRoles
    ensures forall role :: role in ConvertToVegaEncoding(m) <==>
      role in EncodedRoles && role in m && m[role].Truthy()
    ensures forall role :: role in ConvertToVegaEncoding(m) ==>
      ConvertToVegaEncoding(m)[role] == Channel(m[role], MeasureOf(role))
  {
  }

  /** The Vega-Lite specification: fixed schema, size and data name, with the
      suggestion's title, description, mark and encoding. */
  datatype VegaSpec = VegaSpec(
    schema: string, title: string, description: string, width: nat, height: nat,
    dataName: string, mark: string, encoding: Encoding)

  /** The suggestion fields each export copies out. */
  datatype SuggestionMeta = SuggestionMeta(id: nat, confidence: nat, rationale: string)

  datatype ExportedSuggestion = ExportedSuggestion(
    id: nat, vizType: string, title: string, description: string, rationale: string,
    confidence: nat, improvements: seq<string>)

  /** The 'javascript' of a D3 export: the template's code, or a comment
      saying there is none. */
  datatype Script = TemplateScript(code: D3Code) | Comment(text: string)

  const NoCodeComment := "// Code template not available"

  /** The three export formats.  The HTML page around the D3 code is not
      part of this model. */
  datatype Export =
    | JsonExport(suggestion: ExportedSuggestion, config: D3Config)
    | D3Export(javascript: Script, config: D3Config)
    | VegaLiteExport(spec: VegaSpec, meta: SuggestionMeta)

  datatype ExportError = UnsupportedFormat(format: string)

  /** `_export_json`. */
  function ExportJson(s: VizSuggestion): Export
  {
    JsonExport(ExportedSuggestion(s.id, s.vizType.Tag(), s.title, s.description, s.rationale,
                                  s.confidence, s.improvements),
               GenerateD3Config(s))
  }

  /** `_export_d3_code`: `config.get('d3_code', ...)`. */
  function ExportD3Code(s: VizSuggestion): Export
  {
    var config := GenerateD3Config(s);
    var javascript := match config.code
      case Some(code) => TemplateScript(code)
      case None => Comment(NoCodeComment);
    D3Export(javascript, config)
  }

  /** `_export_vega_lite`. */
  function ExportVegaLite(s: VizSuggestion): Export
  {
    VegaLiteExport(
      VegaSpec("https://vega.github.io/schema/vega-lite/v5.json", s.title, s.description, 800, 400,
               "data", VegaMarkType(s.vizType), ConvertToVegaEncoding(s.dataMapping)),
      SuggestionMeta(s.id, s.confidence, s.rationale))
  }

  /** `export_visualization`: dispatch on the format name. */
  function ExportVisualization(s: VizSuggestion, format: string): Result<Export, ExportError>
  {
    if format == "json" then Success(ExportJson(s))
    else if format == "d3" then Success(ExportD3Code(s))
    else if format == "vega-lite" then Success(ExportVegaLite(s))
    else Failure(UnsupportedFormat(format))
  }

  /** Exactly the three format names are accepted, each giving its own kind
      of export; any other name is refused and named in the error. */
  lemma ExportFormats(s: VizSuggestion, format: string)
    ensures ExportVisualization(s, format).Success? <==> format in {"json", "d3", "vega-lite"}
    ensures ExportVisualization(s, format).Success? ==>
      (ExportVisualization(s, format).value.JsonExport? <==> format == "json") &&
      (ExportVisualization(s, format).value.D3Export? <==> format == "d3") &&
      (ExportVisualization(s, format).value.VegaLiteExport? <==> format == "vega-lite")
    ensures ExportVisualization(s, format).Failure? ==>
      ExportVisualization(s, format).error == UnsupportedFormat(format)
  {
  }

  /** The D3 export's script is the template's code for the seven templated
      types and the placeholder comment for the other three; its
      configuration is the one `GenerateD3Config` builds. */
  lemma D3ScriptIsTemplateCode(s: VizSuggestion)
    ensures ExportD3Code(s).config == GenerateD3Config(s)
    ensures ExportD3Code(s).javascript ==
      if s.vizType in {AreaChart, Histogram, BoxPlot} then Comment(NoCodeComment)
      else TemplateScript(D3Code(s.vizType))
  {
    TemplatesMatchTheirType(s.vizType);
  }

  /** The JSON and Vega-Lite exports copy the identifier, confidence and
      rationale verbatim, and the JSON export round-trips the chart type. */
  lemma ExportsCopyMeta(s: VizSuggestion)
    ensures ExportJson(s).suggestion.id == s.id && ExportVegaLite(s).meta.id == s.id
    ensures ExportJson(s).suggestion.confidence == s.confidence &&
      ExportVegaLite(s).meta.confidence == s.confidence
    ensures ExportJson(s).suggestion.rationale == s.rationale &&
      ExportVegaLite(s).meta.rationale == s.rationale
    ensures VizTypeFromTag(ExportJson(s).suggestion.vizType) == Some(s.vizType)
  {
    TagRoundTrip(s.vizType);
  }

  /** Exporting a suggestion rebuilt from its dictionary gives what exporting
      the original gives. */
  lemma ExportAfterRehydrate(s: VizSuggestion, format: string)
    ensures Rehydrate(Serialize(s)).Some?
    ensures ExportVisualization(Rehydrate(Serialize(s)).value, format) == ExportVisualization(s, format)
  {
    RoundTrip(s, Serialize(s));
  }
}
