/** The nine heuristic rules of the recommender.  Each rule reads one
    worksheet record (its name, current chart type, dimensions and measures)
    and emits zero or more suggestions with fixed confidences.

    The original draws a random identifier for every suggestion; here a rule
    is given `first`, the identifier of its first suggestion, and numbers its
    suggestions `first`, `first + 1`, ... in the order it emits them. */
module Rules {
  import opened Text
  import opened Workbook
  import opened Suggestions

  // ---------------------------------------------------------------------------
  // Keyword matching

  const CategoryKeywords: seq<string> := ["id", "name", "code", "product"]
  const TemporalKeywords: seq<string> := ["date", "time", "year", "month", "day", "quarter"]
  const HierarchyKeywords: seq<string> := ["category", "subcategory", "region", "country", "state", "city"]
  const GeoKeywords: seq<string> :=
    ["country", "state", "city", "region", "latitude", "longitude", "zip", "postal"]
  const PerformanceKeywords: seq<string> := ["sales", "revenue", "profit", "performance", "score", "rating"]

  /** Some keyword occurs in the lower-cased field name. */
  predicate Mentions(field: string, keywords: seq<string>)
  {
    ContainsAny(Lower(field), keywords)
  }

  /** The fields that mention a keyword, in their order (the list
      comprehensions of the rules). */
  function Matching(fields: seq<string>, keywords: seq<string>): (r: seq<string>)
    ensures |r| <= |fields|
  {
    if fields == [] then []
    else
      var last := fields[|fields| - 1];
      Matching(fields[..|fields| - 1], keywords) + (if Mentions(last, keywords) then [last] else [])
  }

  /** `Matching` keeps exactly the fields that mention a keyword. */
  lemma {:induction false} MatchingMembers(fields: seq<string>, keywords: seq<string>)
    ensures forall x :: x in Matching(fields, keywords) <==> x in fields && Mentions(x, keywords)
  {
    if fields != [] {
      var prefix := fields[..|fields| - 1];
      MatchingMembers(prefix, keywords);
      assert fields == prefix + [fields[|fields| - 1]];
    }
  }

  /** The first field `Matching` keeps is the first field of the list that
      mentions a keyword. */
  lemma {:induction false} MatchingFirst(fields: seq<string>, keywords: seq<string>) returns (k: nat)
    requires Matching(fields, keywords) != []
    ensures k < |fields| && fields[k] == Matching(fields, keywords)[0] && Mentions(fields[k], keywords)
    ensures forall j :: 0 <= j < k ==> !Mentions(fields[j], keywords)
  {
    var prefix := fields[..|fields| - 1];
    if Matching(prefix, keywords) != [] {
      k := MatchingFirst(prefix, keywords);
    } else {
      k := |fields| - 1;
      MatchingMembers(prefix, keywords);
      forall j | 0 <= j < k
        ensures !Mentions(fields[j], keywords)
      {
        assert fields[j] == prefix[j];
      }
    }
  }

  /** `xs[i]` when the list is long enough, else `None`. */
  function FieldAt(xs: seq<string>, i: nat): (r: MapValue)
    ensures r.Field? <==> i < |xs|
    ensures r.Field? ==> r.name == xs[i]
  {
    if i < |xs| then Field(xs[i]) else NoField
  }

  // ---------------------------------------------------------------------------
  // What every rule emits

  /** The seven confidences the rules use, in hundredths. */
  const Confidences: set<nat> := {55, 60, 65, 70, 75, 80, 85}

  /** Suggestions numbered consecutively from `first`. */
  predicate Numbered(r: seq<VizSuggestion>, first: nat)
  {
    forall i :: 0 <= i < |r| ==> r[i].id == first + i
  }

  /** A batch emitted for worksheet `ws`: numbered from `first`, each
      suggestion naming `ws` as its origin and carrying one of the seven
      confidences. */
  predicate WellFormed(ws: Worksheet, first: nat, r: seq<VizSuggestion>)
  {
    Numbered(r, first) &&
    forall i :: 0 <= i < |r| ==> r[i].originalWorksheet == ws.name && r[i].confidence in Confidences
  }

  /** Two batches side by side, the second numbered on from the first, form
      one batch. */
  lemma WellFormedAppend(ws: Worksheet, first: nat, a: seq<VizSuggestion>, b: seq<VizSuggestion>)
    requires WellFormed(ws, first, a) && WellFormed(ws, first + |a|, b)
    ensures WellFormed(ws, first, a + b)
  {
    forall i | 0 <= i < |a + b|
      ensures (a + b)[i].id == first + i
      ensures (a + b)[i].originalWorksheet == ws.name && (a + b)[i].confidence in Confidences
    {
      if i >= |a| {
        assert (a + b)[i] == b[i - |a|];
      }
    }
  }

  /** A kind of suggestion the rules make: its chart type, its confidence
      (in hundredths) and its fixed wording, that is the title which the
      worksheet name completes, the description, the rationale and the
      improvements.  The rule that emits it supplies the identifier, the
      worksheet and the mapping. */
  datatype Pitch = Pitch(
    chart: VizType,
    confidence: nat,
    titlePrefix: string,
    description: string,
    rationale: string,
    improvements: seq<string>)

  const CategoryTreemap: Pitch := Pitch(
    Treemap, 75,
    "Treemap for ",
    "Use a treemap to better handle large numbers of categories",
    "Bar charts become cluttered with many categories. Treemaps use space more efficiently.",
    ["Better space utilization", "Easier to compare relative sizes", "Supports hierarchical grouping"])

  const CategoryBubble: Pitch := Pitch(
    BubbleChart, 65,
    "Bubble Chart for ",
    "Use a bubble chart to show relationships between multiple dimensions",
    "Bubble charts can encode more information than bar charts and handle many data points well.",
    ["Shows relationships between variables", "Handles large datasets", "Multiple encoding channels"])

  const TimeSeriesLine: Pitch := Pitch(
    LineChart, 85,
    "Time Series Line Chart for ",
    "Use a line chart to show trends over time",
    "Line charts are optimal for showing temporal patterns and trends.",
    ["Better shows temporal trends", "Easier to spot patterns", "Standard for time series data"])

  const StackedArea: Pitch := Pitch(
    AreaChart, 70,
    "Stacked Area Chart for ",
    "Use a stacked area chart to show composition over time",
    "Area charts show both trends and part-to-whole relationships in temporal data.",
    ["Shows composition changes", "Emphasizes cumulative values", "Good for multiple series"])

  const CorrelationScatter: Pitch := Pitch(
    ScatterPlot, 80,
    "Scatter Plot for ",
    "Use a scatter plot to explore correlations between measures",
    "Scatter plots are ideal for revealing relationships between continuous variables.",
    ["Reveals correlations", "Shows data distribution", "Identifies outliers"])

  const DistributionHistogram: Pitch := Pitch(
    Histogram, 60,
    "Distribution Histogram for ",
    "Use a histogram to show data distribution",
    "Histograms reveal the shape and spread of data distributions.",
    ["Shows data distribution", "Identifies skewness", "Reveals outliers"])

  const DistributionBox: Pitch := Pitch(
    BoxPlot, 65,
    "Box Plot for ",
    "Use a box plot to compare distributions across categories",
    "Box plots efficiently show distribution statistics and facilitate comparisons.",
    ["Shows quartiles and outliers", "Compact distribution summary", "Good for comparisons"])

  const PartToWholePie: Pitch := Pitch(
    PieChart, 55,
    "Pie Chart for ",
    "Use a pie chart to emphasize part-to-whole relationships",
    "Pie charts make proportional relationships more apparent than bar charts.",
    ["Emphasizes proportions", "Shows parts of a whole", "Intuitive for percentages"])

  const HierarchyTreemap: Pitch := Pitch(
    Treemap, 75,
    "Hierarchical Treemap for ",
    "Use a treemap to show hierarchical data structure",
    "Treemaps excel at showing hierarchical relationships and proportional sizing.",
    ["Shows hierarchy clearly", "Space-efficient", "Supports drill-down"])

  const MeasuresHeatmap: Pitch := Pitch(
    Heatmap, 70,
    "Measures Heatmap for ",
    "Use a heatmap to compare multiple measures across dimensions",
    "Heatmaps efficiently display patterns in multi-dimensional data.",
    ["Handles many measures", "Shows patterns visually", "Compact representation"])

  const GeographicBubble: Pitch := Pitch(
    BubbleChart, 60,
    "Geographic Bubble Chart for ",
    "Use a bubble chart to show geographic distribution of data",
    "Bubble charts can effectively represent geographic data when maps aren't available.",
    ["Shows geographic patterns", "Handles multiple measures", "Easy to identify hotspots"])

  const PerformanceBar: Pitch := Pitch(
    BarChart, 75,
    "Performance Bar Chart for ",
    "Use a bar chart for clear performance comparisons",
    "Bar charts are optimal for comparing performance metrics across categories.",
    ["Clear comparisons", "Standard for performance", "Easy to rank"])

  /** A suggestion of kind `p` for worksheet `ws`. */
  function Make(p: Pitch, id: nat, ws: Worksheet, mapping: DataMapping): (s: VizSuggestion)
    ensures s.id == id && s.vizType == p.chart && s.confidence == p.confidence
    ensures s.title == p.titlePrefix + ws.name && s.originalWorksheet == ws.name
    ensures s.dataMapping == mapping
  {
    VizSuggestion(id, p.chart, p.titlePrefix + ws.name, p.description, p.rationale, p.confidence,
                  mapping, ws.name, p.improvements)
  }

  /** Some suggestion of `r` has chart type `v`. */
  predicate Emits(r: seq<VizSuggestion>, v: VizType)
  {
    exists i :: 0 <= i < |r| && r[i].vizType == v
  }

  // ---------------------------------------------------------------------------
  // Too many categories

  /** Both suggestions of this rule map the first dimension and the first
      two measures, whichever dimension triggered them. */
  function CategoryTreemapMapping(ws: Worksheet): DataMapping
  {
    map["size" := FieldAt(ws.measures, 0), "color" := FieldAt(ws.dimensions, 0)]
  }

  function CategoryBubbleMapping(ws: Worksheet): DataMapping
  {
    map["x" := FieldAt(ws.dimensions, 0), "y" := FieldAt(ws.measures, 0), "size" := FieldAt(ws.measures, 1)]
  }

  /** The pair emitted for one dimension that mentions a category keyword. */
  function CategoryPair(ws: Worksheet, id: nat): (r: seq<VizSuggestion>)
    ensures WellFormed(ws, id, r)
  {
    [Make(CategoryTreemap, id, ws, CategoryTreemapMapping(ws)),
     Make(CategoryBubble, id + 1, ws, CategoryBubbleMapping(ws))]
  }

  /** The pairs emitted for the first `n` dimensions. */
  function CategoryPairs(ws: Worksheet, n: nat, first: nat): seq<VizSuggestion>
    requires n <= |ws.dimensions|
  {
    if n == 0 then []
    else
      var prev := CategoryPairs(ws, n - 1, first);
      if Mentions(ws.dimensions[n - 1], CategoryKeywords) then prev + CategoryPair(ws, first + |prev|)
      else prev
  }

  /** The pairs are numbered on from `first`, name the worksheet and carry
      the rule's two confidences. */
  lemma {:induction false} CategoryPairsWellFormed(ws: Worksheet, n: nat, first: nat)
    requires n <= |ws.dimensions|
    ensures WellFormed(ws, first, CategoryPairs(ws, n, first))
  {
    if n > 0 {
      CategoryPairsWellFormed(ws, n - 1, first);
      var prev := CategoryPairs(ws, n - 1, first);
      if Mentions(ws.dimensions[n - 1], CategoryKeywords) {
        WellFormedAppend(ws, first, prev, CategoryPair(ws, first + |prev|));
      }
    }
  }

  /** A dimension that mentions a category keyword adds its pair. */
  lemma CategoryPairsHit(ws: Worksheet, i: nat, first: nat, r: seq<VizSuggestion>)
    requires i < |ws.dimensions| && r == CategoryPairs(ws, i, first)
    requires Mentions(ws.dimensions[i], CategoryKeywords)
    ensures CategoryPairs(ws, i + 1, first) == r + CategoryPair(ws, first + |r|)
  {
  }

  /** Any other dimension adds nothing. */
  lemma CategoryPairsMiss(ws: Worksheet, i: nat, first: nat, r: seq<VizSuggestion>)
    requires i < |ws.dimensions| && r == CategoryPairs(ws, i, first)
    requires !Mentions(ws.dimensions[i], CategoryKeywords)
    ensures CategoryPairs(ws, i + 1, first) == r
  {
  }

  /** What dimension `i` adds to the pairs of the dimensions before it. */
  lemma CategoryPairsStep(ws: Worksheet, i: nat, first: nat, r: seq<VizSuggestion>)
    requires i < |ws.dimensions| && r == CategoryPairs(ws, i, first)
    ensures CategoryPairs(ws, i + 1, first) ==
      r + if Mentions(ws.dimensions[i], CategoryKeywords) then CategoryPair(ws, first + |r|) else []
  {
  }

  /** `_rule_too_many_categories`. */
  function TooManyCategories(ws: Worksheet, first: nat): (r: seq<VizSuggestion>)
    ensures WellFormed(ws, first, r)
  {
    if ws.vizType == "bar_chart" then
      CategoryPairsWellFormed(ws, |ws.dimensions|, first);
      CategoryPairs(ws, |ws.dimensions|, first)
    else []
  }

  /** The loop of `_rule_too_many_categories`. */
  method RuleTooManyCategories(ws: Worksheet, first: nat) returns (r: seq<VizSuggestion>)
    ensures r == TooManyCategories(ws, first)
  {
    r := [];
    if ws.vizType == "bar_chart" {
      r := CollectCategoryPairs(ws, first);
    }
  }

  /** The loop over the dimensions: a pair for each one that mentions a
      category keyword. */
  method CollectCategoryPairs(ws: Worksheet, first: nat) returns (r: seq<VizSuggestion>)
    ensures r == CategoryPairs(ws, |ws.dimensions|, first)
  {
    r := [];
    var i := 0;
    while i < |ws.dimensions|
      invariant 0 <= i <= |ws.dimensions|
      invariant r == CategoryPairs(ws, i, first)
    {
      var pair := if Mentions(ws.dimensions[i], CategoryKeywords) then CategoryPair(ws, first + |r|) else [];
      CategoryPairsStep(ws, i, first, r);
      r := r + pair;
      i := i + 1;
    }
  }


  /** The rule's output alternates a treemap (0.75) and a bubble chart
      (0.65), one pair per dimension mentioning "id", "name", "code" or
      "product"; every mapping is built from the first dimension and the
      first two measures, not from the matching dimension. */
  lemma {:induction false} CategoryPairsAlternate(ws: Worksheet, n: nat, first: nat)
    requires n <= |ws.dimensions|
    ensures Alternating(ws, CategoryPairs(ws, n, first), first)
  {
    if n > 0 {
      CategoryPairsAlternate(ws, n - 1, first);
      AlternatingStep(ws, n - 1, first);
    }
  }

  /** One more dimension keeps the alternation. */
  lemma AlternatingStep(ws: Worksheet, i: nat, first: nat)
    requires i < |ws.dimensions| && Alternating(ws, CategoryPairs(ws, i, first), first)
    ensures Alternating(ws, CategoryPairs(ws, i + 1, first), first)
  {
    var prev := CategoryPairs(ws, i, first);
    if Mentions(ws.dimensions[i], CategoryKeywords) {
      CategoryPairsHit(ws, i, first, prev);
      AlternatingExtend(ws, prev, first);
    } else {
      CategoryPairsMiss(ws, i, first, prev);
    }
  }

  /** Treemaps at even positions and bubble charts at odd ones, in whole
      pairs, each numbered by its position from `first`. */
  predicate Alternating(ws: Worksheet, r: seq<VizSuggestion>, first: nat)
  {
    |r| % 2 == 0 &&
    (forall i :: 0 <= i < |r| && i % 2 == 0 ==>
      r[i] == Make(CategoryTreemap, first + i, ws, CategoryTreemapMapping(ws))) &&
    (forall i :: 0 <= i < |r| && i % 2 == 1 ==>
      r[i] == Make(CategoryBubble, first + i, ws, CategoryBubbleMapping(ws)))
  }

  /** One more pair keeps the alternation. */
  lemma AlternatingExtend(ws: Worksheet, prev: seq<VizSuggestion>, first: nat)
    requires Alternating(ws, prev, first)
    ensures Alternating(ws, prev + CategoryPair(ws, first + |prev|), first)
  {
    var pair := CategoryPair(ws, first + |prev|);
    var r := prev + pair;
    forall i | 0 <= i < |r| && i % 2 == 0
      ensures r[i] == Make(CategoryTreemap, first + i, ws, CategoryTreemapMapping(ws))
    {
      if i >= |prev| {
        assert i == |prev|;
      }
    }
    forall i | 0 <= i < |r| && i % 2 == 1
      ensures r[i] == Make(CategoryBubble, first + i, ws, CategoryBubbleMapping(ws))
    {
      if i >= |prev| {
        assert i == |prev| + 1;
      }
    }
  }



  /** Two suggestions per dimension, among the first `n`, that mentions a
      category keyword. */
  lemma {:induction false} CategoryPairsCount(ws: Worksheet, n: nat, first: nat)
    requires n <= |ws.dimensions|
    ensures |CategoryPairs(ws, n, first)| == 2 * |Matching(ws.dimensions[..n], CategoryKeywords)|
  {
    if n > 0 {
      CategoryPairsCount(ws, n - 1, first);
      assert ws.dimensions[..n][..n - 1] == ws.dimensions[..n - 1];
    }
  }

  /** No suggestion unless the worksheet is a bar chart, and then two per
      dimension mentioning a category keyword. */
  lemma TooManyCategoriesCount(ws: Worksheet, first: nat)
    ensures ws.vizType != "bar_chart" ==> TooManyCategories(ws, first) == []
    ensures ws.vizType == "bar_chart" ==>
      |TooManyCategories(ws, first)| == 2 * |Matching(ws.dimensions, CategoryKeywords)|
  {
    CategoryPairsCount(ws, |ws.dimensions|, first);
    assert ws.dimensions[..|ws.dimensions|] == ws.dimensions;
  }

  // ---------------------------------------------------------------------------
  // Time series

  function LineMapping(ws: Worksheet, time: string): DataMapping
    requires ws.measures != []
  {
    map["x" := Field(time), "y" := Field(ws.measures[0]), "color" := FieldAt(ws.dimensions, 1)]
  }

  function AreaMapping(ws: Worksheet, time: string): DataMapping
  {
    map["x" := Field(time), "y" := Fields(ws.measures), "stack" := Flag(true)]
  }

  /** `_rule_time_series_opportunity`. */
  function TimeSeries(ws: Worksheet, first: nat): (r: seq<VizSuggestion>)
    ensures WellFormed(ws, first, r)
  {
    var temporal := Matching(ws.dimensions, TemporalKeywords);
    if temporal == [] || ws.measures == [] then []
    else if ws.vizType != "line_chart" then
      var line := Make(TimeSeriesLine, first, ws, LineMapping(ws, temporal[0]));
      if |ws.measures| > 1 then [line, Make(StackedArea, first + 1, ws, AreaMapping(ws, temporal[0]))]
      else [line]
    else if |ws.measures| > 1 then [Make(StackedArea, first, ws, AreaMapping(ws, temporal[0]))]
    else []
  }

  /** Some dimension mentions a date or time keyword. */
  predicate HasTemporal(ws: Worksheet)
  {
    exists d :: d in ws.dimensions && Mentions(d, TemporalKeywords)
  }

  /** The first dimension mentioning a date or time keyword exists exactly
      when some dimension mentions one. */
  lemma TemporalFound(ws: Worksheet)
    ensures Matching(ws.dimensions, TemporalKeywords) != [] <==> HasTemporal(ws)
  {
    MatchingMembers(ws.dimensions, TemporalKeywords);
    var temporal := Matching(ws.dimensions, TemporalKeywords);
    if temporal != [] {
      assert temporal[0] in temporal;
    }
  }

  /** A line chart (0.85, x the first temporal dimension, y the first
      measure, colour the second dimension or None) is emitted exactly when there is a temporal dimension and a
      measure and the worksheet is not already a line chart. */
  lemma TimeSeriesLineTrigger(ws: Worksheet, first: nat)
    ensures Emits(TimeSeries(ws, first), LineChart) <==>
      HasTemporal(ws) && ws.measures != [] && ws.vizType != "line_chart"
    ensures forall s :: s in TimeSeries(ws, first) && s.vizType == LineChart ==>
      s.confidence == 85 && s.dataMapping["x"] == Field(Matching(ws.dimensions, TemporalKeywords)[0]) &&
      s.dataMapping["y"] == Field(ws.measures[0]) && s.dataMapping["color"] == FieldAt(ws.dimensions, 1)
  {
    TemporalFound(ws);
    var temporal := Matching(ws.dimensions, TemporalKeywords);
    var r := TimeSeries(ws, first);
    if temporal == [] || ws.measures == [] {
      assert r == [];
    } else if ws.vizType != "line_chart" {
      var line := Make(TimeSeriesLine, first, ws, LineMapping(ws, temporal[0]));
      assert r[0] == line && line.vizType == LineChart;
      assert forall s :: s in r && s.vizType == LineChart ==> s == line;
    } else {
      assert forall s :: s in r ==> s.vizType == AreaChart;
    }
  }

  /** A stacked area chart (0.70, x the first temporal dimension, y all
      measures, stacked) is emitted exactly
      when there is a temporal dimension and more than one measure, whatever
      the current chart. */
  lemma TimeSeriesAreaTrigger(ws: Worksheet, first: nat)
    ensures Emits(TimeSeries(ws, first), AreaChart) <==> HasTemporal(ws) && |ws.measures| > 1
    ensures forall s :: s in TimeSeries(ws, first) && s.vizType == AreaChart ==>
      s.confidence == 70 && Matching(ws.dimensions, TemporalKeywords) != [] &&
      s.dataMapping["x"] == Field(Matching(ws.dimensions, TemporalKeywords)[0]) &&
      s.dataMapping["y"] == Fields(ws.measures) && s.dataMapping["stack"] == Flag(true)
  {
    TemporalFound(ws);
    var temporal := Matching(ws.dimensions, TemporalKeywords);
    var r := TimeSeries(ws, first);
    if temporal != [] && |ws.measures| > 1 {
      assert r[|r| - 1].vizType == AreaChart;
    }
  }

  // ---------------------------------------------------------------------------
  // Correlation

  function ScatterMapping(ws: Worksheet): DataMapping
    requires |ws.measures| >= 2
  {
    map["x" := Field(ws.measures[0]), "y" := Field(ws.measures[1]), "size" := FieldAt(ws.measures, 2),
        "color" := FieldAt(ws.dimensions, 0)]
  }

  /** `_rule_correlation_opportunity`. */
  function Correlation(ws: Worksheet, first: nat): (r: seq<VizSuggestion>)
    ensures WellFormed(ws, first, r)
  {
    if |ws.measures| >= 2 && ws.vizType != "scatter_plot" then
      [Make(CorrelationScatter, first, ws, ScatterMapping(ws))]
    else []
  }

  /** A scatter plot (0.80; x, y the first two measures, size the third or
      None, colour the first dimension or None) is emitted exactly when there
      are two measures or more and the worksheet is not a scatter plot. */
  lemma CorrelationTrigger(ws: Worksheet, first: nat)
    ensures Emits(Correlation(ws, first), ScatterPlot) <==>
      |ws.measures| >= 2 && ws.vizType != "scatter_plot"
    ensures forall s :: s in Correlation(ws, first) ==>
      s.vizType == ScatterPlot && s.confidence == 80 &&
      s.dataMapping["x"] == Field(ws.measures[0]) && s.dataMapping["y"] == Field(ws.measures[1]) &&
      s.dataMapping["size"] == FieldAt(ws.measures, 2) && s.dataMapping["color"] == FieldAt(ws.dimensions, 0)
  {
    if |ws.measures| >= 2 && ws.vizType != "scatter_plot" {
      assert Correlation(ws, first)[0].vizType == ScatterPlot;
    }
  }

  // ---------------------------------------------------------------------------
  // Distribution

  /** `_rule_distribution_analysis`. */
  function Distribution(ws: Worksheet, first: nat): (r: seq<VizSuggestion>)
    ensures WellFormed(ws, first, r)
  {
    if ws.measures != [] && ws.vizType != "histogram" && ws.vizType != "box_plot" then
      [Make(DistributionHistogram, first, ws, map["x" := Field(ws.measures[0]), "bins" := Field("auto")])] +
      (if ws.dimensions != [] then
         [Make(DistributionBox, first + 1, ws,
               map["x" := Field(ws.dimensions[0]), "y" := Field(ws.measures[0])])]
       else [])
    else []
  }

  /** A histogram (0.60, x the first measure, automatic bins) is emitted exactly when there
      is a measure and the worksheet is neither a histogram nor a box plot; a
      box plot (0.65) exactly when, in addition, there is a dimension. */
  lemma DistributionTriggers(ws: Worksheet, first: nat)
    ensures Emits(Distribution(ws, first), Histogram) <==>
      ws.measures != [] && ws.vizType != "histogram" && ws.vizType != "box_plot"
    ensures Emits(Distribution(ws, first), BoxPlot) <==>
      ws.measures != [] && ws.dimensions != [] && ws.vizType != "histogram" && ws.vizType != "box_plot"
    ensures forall s :: s in Distribution(ws, first) && s.vizType == Histogram ==>
      s.confidence == 60 && ws.measures != [] &&
      s.dataMapping == map["x" := Field(ws.measures[0]), "bins" := Field("auto")]
    ensures forall s :: s in Distribution(ws, first) && s.vizType == BoxPlot ==>
      s.confidence == 65 && ws.dimensions != [] && ws.measures != [] &&
      s.dataMapping == map["x" := Field(ws.dimensions[0]), "y" := Field(ws.measures[0])]
  {
    var r := Distribution(ws, first);
    if r != [] {
      assert r[0].vizType == Histogram;
      if ws.dimensions != [] {
        assert r[1].vizType == BoxPlot;
      }
    }
  }

  // ---------------------------------------------------------------------------
  // Part to whole

  /** `_rule_part_to_whole`. */
  function PartToWhole(ws: Worksheet, first: nat): (r: seq<VizSuggestion>)
    ensures WellFormed(ws, first, r)
  {
    if |ws.dimensions| == 1 && |ws.measures| == 1 && ws.vizType == "bar_chart" then
      [Make(PartToWholePie, first, ws, map["angle" := Field(ws.measures[0]), "color" := Field(ws.dimensions[0])])]
    else []
  }

  /** A pie chart (0.55, angle the measure, colour the dimension) is emitted
      exactly for a bar chart with one dimension and one measure. */
  lemma PartToWholeTrigger(ws: Worksheet, first: nat)
    ensures Emits(PartToWhole(ws, first), PieChart) <==>
      |ws.dimensions| == 1 && |ws.measures| == 1 && ws.vizType == "bar_chart"
    ensures forall s :: s in PartToWhole(ws, first) ==>
      s.vizType == PieChart && s.confidence == 55 && |ws.dimensions| == 1 && |ws.measures| == 1 &&
      s.dataMapping["angle"] == Field(ws.measures[0]) && s.dataMapping["color"] == Field(ws.dimensions[0])
  {
    if PartToWhole(ws, first) != [] {
      assert PartToWhole(ws, first)[0].vizType == PieChart;
    }
  }

  // ---------------------------------------------------------------------------
  // Hierarchical data

  function HierarchyMapping(ws: Worksheet, hierarchy: seq<string>): DataMapping
    requires ws.measures != []
  {
    map["hierarchy" := Fields(hierarchy), "size" := Field(ws.measures[0]),
        "color" := Field(if |ws.measures| > 1 then ws.measures[1] else ws.measures[0])]
  }

  /** `_rule_hierarchical_data`. */
  function Hierarchical(ws: Worksheet, first: nat): (r: seq<VizSuggestion>)
    ensures WellFormed(ws, first, r)
  {
    var hierarchy := Matching(ws.dimensions, HierarchyKeywords);
    if |hierarchy| >= 2 && ws.measures != [] then
      [Make(HierarchyTreemap, first, ws, HierarchyMapping(ws, hierarchy))]
    else []
  }

  /** A treemap (0.75, size the first measure, colour the second measure or
      else the first) over the hierarchy dimensions, in order, is emitted
      exactly when at least two dimensions mention a hierarchy keyword and
      there is a measure. */
  lemma HierarchicalTrigger(ws: Worksheet, first: nat)
    ensures Emits(Hierarchical(ws, first), Treemap) <==>
      |Matching(ws.dimensions, HierarchyKeywords)| >= 2 && ws.measures != []
    ensures forall s :: s in Hierarchical(ws, first) ==>
      s.vizType == Treemap && s.confidence == 75 && ws.measures != [] &&
      s.dataMapping["size"] == Field(ws.measures[0]) &&
      s.dataMapping["color"] == Field(if |ws.measures| > 1 then ws.measures[1] else ws.measures[0]) &&
      s.dataMapping["hierarchy"] == Fields(Matching(ws.dimensions, HierarchyKeywords)) &&
      (forall d :: d in s.dataMapping["hierarchy"].names ==> d in ws.dimensions && Mentions(d, HierarchyKeywords))
  {
    MatchingMembers(ws.dimensions, HierarchyKeywords);
    if Hierarchical(ws, first) != [] {
      assert Hierarchical(ws, first)[0].vizType == Treemap;
    }
  }

  // ---------------------------------------------------------------------------
  // Multiple measures

  function HeatmapMapping(ws: Worksheet): DataMapping
  {
    map["x" := FieldAt(ws.dimensions, 0), "y" := Fields(ws.measures), "color" := Field("value")]
  }

  /** `_rule_multiple_measures`. */
  function MultipleMeasures(ws: Worksheet, first: nat): (r: seq<VizSuggestion>)
    ensures WellFormed(ws, first, r)
  {
    if |ws.measures| > 2 then [Make(MeasuresHeatmap, first, ws, HeatmapMapping(ws))] else []
  }

  /** A heatmap (0.70, x the first dimension or None, y all measures,
      colour "value") is
      emitted exactly when there are more than two measures. */
  lemma HeatmapTrigger(ws: Worksheet, first: nat)
    ensures Emits(MultipleMeasures(ws, first), Heatmap) <==> |ws.measures| > 2
    ensures forall s :: s in MultipleMeasures(ws, first) ==>
      s.vizType == Heatmap && s.confidence == 70 &&
      s.dataMapping["x"] == FieldAt(ws.dimensions, 0) && s.dataMapping["y"] == Fields(ws.measures) &&
      s.dataMapping["color"] == Field("value")
  {
    if |ws.measures| > 2 {
      assert MultipleMeasures(ws, first)[0].vizType == Heatmap;
    }
  }

  // ---------------------------------------------------------------------------
  // Geographic data

  function GeographicMapping(ws: Worksheet, place: string): DataMapping
    requires ws.measures != []
  {
    map["x" := Field(place), "y" := Field(ws.measures[0]),
        "size" := Field(if |ws.measures| > 1 then ws.measures[1] else ws.measures[0])]
  }

  /** `_rule_geographic_data`. */
  function Geographic(ws: Worksheet, first: nat): (r: seq<VizSuggestion>)
    ensures WellFormed(ws, first, r)
  {
    var places := Matching(ws.dimensions, GeoKeywords);
    if places != [] && ws.measures != [] then
      [Make(GeographicBubble, first, ws, GeographicMapping(ws, places[0]))]
    else []
  }

  /** A geographic bubble chart (0.60, x the first geographic dimension) is
      emitted exactly when some dimension mentions a geographic keyword and
      there is a measure. */
  lemma GeographicTrigger(ws: Worksheet, first: nat)
    ensures Emits(Geographic(ws, first), BubbleChart) <==>
      (exists d :: d in ws.dimensions && Mentions(d, GeoKeywords)) && ws.measures != []
    ensures forall s :: s in Geographic(ws, first) ==>
      s.vizType == BubbleChart && s.confidence == 60 &&
      Matching(ws.dimensions, GeoKeywords) != [] && ws.measures != [] &&
      s.dataMapping["x"] == Field(Matching(ws.dimensions, GeoKeywords)[0]) &&
      s.dataMapping["y"] == Field(ws.measures[0]) &&
      s.dataMapping["size"] == Field(if |ws.measures| > 1 then ws.measures[1] else ws.measures[0])
  {
    MatchingMembers(ws.dimensions, GeoKeywords);
    var places := Matching(ws.dimensions, GeoKeywords);
    if places != [] {
      assert places[0] in places;
    }
    if Geographic(ws, first) != [] {
      assert Geographic(ws, first)[0].vizType == BubbleChart;
    }
  }

  // ---------------------------------------------------------------------------
  // Performance comparison

  function PerformanceMapping(ws: Worksheet, metric: string): DataMapping
    requires ws.dimensions != []
  {
    map["x" := Field(ws.dimensions[0]), "y" := Field(metric), "color" := FieldAt(ws.dimensions, 1)]
  }

  /** `_rule_performance_comparison`. */
  function PerformanceComparison(ws: Worksheet, first: nat): (r: seq<VizSuggestion>)
    ensures WellFormed(ws, first, r)
  {
    var metrics := Matching(ws.measures, PerformanceKeywords);
    if metrics != [] && ws.dimensions != [] && ws.vizType != "bar_chart" then
      [Make(PerformanceBar, first, ws, PerformanceMapping(ws, metrics[0]))]
    else []
  }
  /** A bar chart (0.75, y the first performance measure) is emitted exactly
      when some measure mentions a performance keyword, there is a dimension,
      and the worksheet is not already a bar chart. */
  lemma PerformanceTrigger(ws: Worksheet, first: nat)
    ensures Emits(PerformanceComparison(ws, first), BarChart) <==>
      (exists m :: m in ws.measures && Mentions(m, PerformanceKeywords)) && ws.dimensions != [] &&
      ws.vizType != "bar_chart"
    ensures forall s :: s in PerformanceComparison(ws, first) ==>
      s.vizType == BarChart && s.confidence == 75 &&
      Matching(ws.measures, PerformanceKeywords) != [] && ws.dimensions != [] &&
      s.dataMapping["x"] == Field(ws.dimensions[0]) &&
      s.dataMapping["y"] == Field(Matching(ws.measures, PerformanceKeywords)[0]) &&
      s.dataMapping["color"] == FieldAt(ws.dimensions, 1)
  {
    MatchingMembers(ws.measures, PerformanceKeywords);
    var metrics := Matching(ws.measures, PerformanceKeywords);
    if metrics != [] {
      assert metrics[0] in metrics;
    }
    if PerformanceComparison(ws, first) != [] {
      assert PerformanceComparison(ws, first)[0].vizType == BarChart;
    }
  }

  // ---------------------------------------------------------------------------
  // All rules, in order

  /** A rule: given a worksheet and the identifier of its first
      suggestion, the suggestions it makes. */
  type RuleFn = (Worksheet, nat) -> seq<VizSuggestion>

  /** `_initialize_rules`: the nine rules, in the order they are applied. */
  const DefaultRules: seq<RuleFn> :=
    [TooManyCategories, TimeSeries, Correlation, Distribution, PartToWhole,
     Hierarchical, MultipleMeasures, Geographic, PerformanceComparison]

  /** A rule that emits a well-formed batch for every worksheet and first
      identifier. */
  ghost predicate RuleSound(rule: RuleFn)
  {
    forall ws, first :: WellFormed(ws, first, rule(ws, first))
  }

  /** Every rule of the list emits well-formed batches. */
  ghost predicate Sound(rules: seq<RuleFn>)
  {
    forall k :: 0 <= k < |rules| ==> RuleSound(rules[k])
  }

  /** The rule at position `k` of the default list is sound. */
  lemma DefaultRuleSound(k: nat)
    requires k < |DefaultRules|
    ensures RuleSound(DefaultRules[k])
  {
    if k == 0 { assert DefaultRules[k] == TooManyCategories; }
    else if k == 1 { assert DefaultRules[k] == TimeSeries; }
    else if k == 2 { assert DefaultRules[k] == Correlation; }
    else if k == 3 { assert DefaultRules[k] == Distribution; }
    else if k == 4 { assert DefaultRules[k] == PartToWhole; }
    else if k == 5 { assert DefaultRules[k] == Hierarchical; }
    else if k == 6 { assert DefaultRules[k] == MultipleMeasures; }
    else if k == 7 { assert DefaultRules[k] == Geographic; }
    else { assert DefaultRules[k] == PerformanceComparison; }
  }

  /** The nine rules of `_initialize_rules` all emit well-formed batches. */
  lemma DefaultRulesSound()
    ensures |DefaultRules| == 9 && Sound(DefaultRules)
  {
    forall k | 0 <= k < |DefaultRules|
      ensures RuleSound(DefaultRules[k])
    {
      DefaultRuleSound(k);
    }
  }

  /** The output of the first `n` rules of `rules` on `ws`, concatenated in
      rule order and numbered on from `first`. */
  function RuleOutputs(rules: seq<RuleFn>, n: nat, ws: Worksheet, first: nat): (r: seq<VizSuggestion>)
    requires n <= |rules| && Sound(rules)
    ensures WellFormed(ws, first, r)
  {
    if n == 0 then []
    else
      var prev := RuleOutputs(rules, n - 1, ws, first);
      WellFormedAppend(ws, first, prev, rules[n - 1](ws, first + |prev|));
      prev + rules[n - 1](ws, first + |prev|)
  }

  /** A worksheet without dimensions and without measures gets no
      suggestion from any rule. */
  lemma {:induction false} NoFieldsNoSuggestions(n: nat, ws: Worksheet, first: nat)
    requires n <= 9 && ws.dimensions == [] && ws.measures == []
    ensures Sound(DefaultRules) && RuleOutputs(DefaultRules, n, ws, first) == []
  {
    DefaultRulesSound();
    if n > 0 {
      NoFieldsNoSuggestions(n - 1, ws, first);
      assert Matching(ws.dimensions, TemporalKeywords) == [];
      assert Matching(ws.dimensions, GeoKeywords) == [];
      assert DefaultRules[n - 1](ws, first) == [];
    }
  }
}
