# VizMorph core in Dafny

This project models the decision logic of VizMorph, a tool that reads Tableau
workbooks and proposes better visualisations for their worksheets. It has three parts:

- **The workbook parser** (`TableauParser`). It walks a parsed workbook XML tree and builds the
  workbook record. The record holds the summary, and for each worksheet its mark type, its
  eight shelves, its filters, its inferred chart type and its dimension/measure split. The
  record also lists the datasources with their connections and columns. The parser selects the
  `.twb` document inside a `.twbx` archive, and caches every workbook that parsed successfully.
- **The recommendation engine** (`VizRecommender`). Nine heuristic rules each look at one
  worksheet and emit zero or more chart suggestions. Each suggestion has a fixed confidence and
  a field-to-encoding mapping. The engine runs the rules over every worksheet in order, keeps
  each suggestion in an id-to-suggestion cache, and returns them all, stably sorted by
  descending confidence, as dictionaries.
- **The visualisation generator** (`VizGenerator`). It builds the chart configuration for a
  suggestion, either from a per-type template or from the generic fallback. It also exports a
  suggestion as JSON, as D3 code or as a Vega-Lite specification.

Modules follow the program's structure:

- `Text` (option/result types and the string operations used);
- `Xml` (the element tree and the ElementTree queries `find`, `findall` and
  `.//*[@key="value"]`);
- `Workbook` (the parsed record);
- `TableauParsing`, `Suggestions`, `Rules`, `Ranking`, `Recommender` and `VizGenerator`.

Modelling conventions:

- Confidences are whole hundredths: 85 stands for 0.85.
- The random `uuid4` identifiers are drawn from a counter field (`nextId`) in each stateful class.
  A rule receives the identifier of its first suggestion and numbers its suggestions on
  consecutively.
- Loops that build lists and dicts are methods with the source's loops. Each is proved equal to
  a specification function, and the lemmas state the properties of those functions.
- The two caches are class fields that the methods update under `modifies`.

## Model

| member | source | states |
|---|---|---|
| `Suggestions.TagRoundTrip` | src/viz_recommender.py:14-26 | `VizType(v.value)` gives back `v` for each of the ten chart types, so the ten string values are distinct |
| `Suggestions.TagInjective` | src/viz_recommender.py:14-26 | two chart types with the same string value are the same type |
| `Suggestions.VizTypeFromTag` | src/viz_recommender.py:14-26 | a string accepted as a chart type is that type's value; any other string is rejected |
| `Suggestions.RoundTrip` | src/viz_recommender.py:406-418 | rebuilding a serialised suggestion gives back every one of its nine fields; a dictionary that rebuilds is the serialisation of what it rebuilds to |
| `Suggestions.SerializeInjective` | src/viz_recommender.py:406-418 | distinct suggestions serialise to distinct dictionaries |
| `Rules.MatchingMembers` | src/viz_recommender.py:150-151 | the keyword-filter comprehension keeps exactly the fields whose lower-cased name contains a keyword |
| `Rules.MatchingFirst` | src/viz_recommender.py:150-151 | the first filtered field is the first field, in order, that mentions a keyword |
| `Rules.WellFormedAppend` | src/viz_recommender.py:75-77 | appending a rule's output numbered on from the end keeps the list consecutively numbered, from this worksheet and with listed confidences |
| `Rules.TooManyCategories` | src/viz_recommender.py:99-140 | the rule's output is consecutively numbered, originates in the worksheet and uses listed confidences |
| `Rules.CategoryPairsWellFormed` | src/viz_recommender.py:107-138 | the per-dimension loop's output is consecutively numbered, from this worksheet, with confidences 75 and 65 |
| `Rules.RuleTooManyCategories` | src/viz_recommender.py:99-140 | the imperative rule, with its loop over dimensions, returns exactly the function's output |
| `Rules.CollectCategoryPairs` | src/viz_recommender.py:107-138 | the loop appends a treemap and bubble pair for each matching dimension, in dimension order |
| `Rules.CategoryPairsAlternate` | src/viz_recommender.py:107-138 | the output alternates: treemap (0.75, size the first measure, colour the first dimension), then bubble chart (0.65, x the first dimension, y and size the first two measures) |
| `Rules.CategoryPairsCount` | src/viz_recommender.py:107-138 | two suggestions per dimension whose lower-cased name contains id, name, code or product |
| `Rules.TooManyCategoriesCount` | src/viz_recommender.py:103-138 | nothing unless the worksheet is a bar chart; otherwise two suggestions per matching dimension |
| `Rules.TimeSeries` | src/viz_recommender.py:142-188 | the time-series rule's output is well formed (numbered, from this worksheet, listed confidences) |
| `Rules.TemporalFound` | src/viz_recommender.py:150-153 | the temporal-field list is non-empty exactly when some dimension mentions date, time, year, month, day or quarter |
| `Rules.TimeSeriesLineTrigger` | src/viz_recommender.py:153-169 | a line chart is emitted iff there is a temporal dimension, a measure, and the worksheet is not a line chart; it has 0.85, x the first temporal dimension, y the first measure and colour the second dimension or None |
| `Rules.TimeSeriesAreaTrigger` | src/viz_recommender.py:171-186 | an area chart is emitted iff there is a temporal dimension and more than one measure, whatever the chart type; it has 0.70, x the first temporal dimension, y all measures, and stack set |
| `Rules.Correlation` | src/viz_recommender.py:190-214 | the correlation rule's output is well formed |
| `Rules.Distribution` | src/viz_recommender.py:216-257 | the distribution rule's output is well formed |
| `Rules.DistributionTriggers` | src/viz_recommender.py:222-255 | a histogram iff there is a measure and the chart is neither histogram nor box plot, with 0.60, x the first measure and bins "auto"; a box plot iff additionally there is a dimension, with 0.65, x the first dimension and y the first measure |
| `Rules.PartToWhole` | src/viz_recommender.py:259-284 | the part-to-whole rule's output is well formed |
| `Rules.PartToWholeTrigger` | src/viz_recommender.py:266-282 | a pie chart iff there is exactly one dimension and one measure and the worksheet is a bar chart |
| `Rules.Hierarchical` | src/viz_recommender.py:286-314 | the hierarchy rule's output is well formed |
| `Rules.HierarchicalTrigger` | src/viz_recommender.py:293-312 | a treemap iff at least two dimensions mention a hierarchy keyword and there is a measure; it has 0.75, size the first measure, colour the second measure or else the first, and a hierarchy of exactly those dimensions, in order |
| `Rules.MultipleMeasures` | src/viz_recommender.py:316-341 | the multiple-measures rule's output is well formed |
| `Rules.CorrelationTrigger` | src/viz_recommender.py:196-212 | a scatter plot is emitted iff there are at least two measures and the worksheet is not a scatter plot; it has 0.80, x and y the first two measures, size the third or None, colour the first dimension or None |
| `Rules.HeatmapTrigger` | src/viz_recommender.py:323-339 | a heatmap is emitted iff there are more than two measures; it has 0.70, x the first dimension or None, y all measures and colour "value" |
| `Rules.Geographic` | src/viz_recommender.py:343-373 | the geographic rule's output is well formed |
| `Rules.GeographicTrigger` | src/viz_recommender.py:350-371 | a bubble chart iff some dimension mentions a geographic keyword and there is a measure |
| `Rules.PerformanceComparison` | src/viz_recommender.py:375-404 | the performance rule's output is well formed |
| `Rules.PerformanceTrigger` | src/viz_recommender.py:384-402 | a bar chart iff some measure mentions a performance keyword, there is a dimension, and the worksheet is not a bar chart |
| `Rules.DefaultRulesSound` | src/viz_recommender.py:85-97 | the rule list holds the nine rules, and every one of them yields well-formed output for every worksheet |
| `Rules.DefaultRuleSound` | src/viz_recommender.py:85-97 | each entry of the rule list, taken alone, yields well-formed output for every worksheet and starting number |
| `Rules.RuleOutputs` | src/viz_recommender.py:75-77 | the rules' concatenated output for one worksheet is numbered on from the first identifier, names the worksheet, and uses only listed confidences |
| `Rules.NoFieldsNoSuggestions` | src/viz_recommender.py:99-404 | a worksheet without dimensions and measures gets no suggestion from any of the nine rules |
| `Ranking.WithConfidenceMembers` | src/viz_recommender.py:56 | the per-confidence selection used to state stability holds exactly the elements of that confidence |
| `Ranking.InsertPermutes` | src/viz_recommender.py:56 | one insertion step adds exactly the inserted suggestion |
| `Ranking.InsertSorted` | src/viz_recommender.py:56 | inserting into a list sorted by descending confidence keeps it sorted |
| `Ranking.InsertStable` | src/viz_recommender.py:56 | an inserted suggestion goes after those of equal confidence already present |
| `Ranking.SortSortedPermutes` | src/viz_recommender.py:56 | `sort(key=confidence, reverse=True)` yields a list that is non-increasing in confidence and a permutation of its input |
| `Ranking.SortStable` | src/viz_recommender.py:56 | the sort is stable: the suggestions of any one confidence keep their input order |
| `Recommender.CachedBatch` | src/viz_recommender.py:79-81 | storing a consecutively numbered batch keeps every earlier entry, finds each new suggestion under its identifier, and adds nothing else |
| `Recommender.CachedAppend` | src/viz_recommender.py:79-81 | storing two batches in turn is storing their concatenation |
| `Recommender.WorkbookSuggestionsNumbered` | src/viz_recommender.py:51-54 | the workbook's suggestions, worksheet after worksheet, are numbered consecutively |
| `Recommender.WorkbookSuggestionsOrigin` | src/viz_recommender.py:51-54 | every suggestion names one of the workbook's worksheets as its origin, and has one of the seven confidences 0.55 to 0.85 |
| `Recommender.ApplyRules` | src/viz_recommender.py:75-77 | the loop over the rule list returns the rules' outputs concatenated in rule order |
| `Recommender.SerializeAll` | src/viz_recommender.py:58 | the serialised list has one entry per suggestion, and entry i keeps suggestion i's identifier and confidence and rebuilds to exactly suggestion i |
| `Recommender.RankedIsSortedPermutation` | src/viz_recommender.py:47-58 | the returned list is the serialisation of a list that is non-increasing in confidence, a permutation of all rule outputs over the worksheets in order, and stable on ties; the returned dictionaries themselves are in non-increasing confidence |
| `Recommender.RankedAreCached` | src/viz_recommender.py:47-81 | every returned entry's identifier is in the cache left behind, and the entry is the serialisation of the cached suggestion, which rebuilds from it |
| `Recommender.VizRecommender.constructor` | src/viz_recommender.py:43-45 | starts with an empty cache and the nine rules |
| `Recommender.VizRecommender.GetSuggestion` | src/viz_recommender.py:60-62 | returns the cached suggestion, or nothing exactly when the identifier is not cached |
| `Recommender.VizRecommender.AnalyzeWorksheet` | src/viz_recommender.py:64-83 | returns the nine rules' output for the worksheet and stores each suggestion under its identifier; the cache invariant is kept |
| `Recommender.VizRecommender.CacheAll` | src/viz_recommender.py:80-81 | the loop stores each suggestion under its identifier, in order |
| `Recommender.VizRecommender.AnalyzeAll` | src/viz_recommender.py:51-54 | the loop over worksheets collects each worksheet's suggestions in turn, leaving all in the cache |
| `Recommender.VizRecommender.GenerateSuggestions` | src/viz_recommender.py:47-58 | returns the ranked serialisation of all the suggestions; each returned identifier can be looked up and gives back the returned entry |
| `Xml.Find` | src/tableau_parser.py:124-127 | `find('.//t')` is nothing exactly when no descendant has tag `t`, else the first descendant in document order with that tag: none before it carries the tag |
| `Xml.ChildDescendants` | src/tableau_parser.py:100 | a child and all of its descendants are descendants of the parent |
| `Text.ContainsAt` | src/viz_recommender.py:108 | substring containment holds exactly when the substring occurs at some offset |
| `Text.Lower` | src/viz_recommender.py:108 | lower-casing keeps the length and lower-cases each character |
| `Text.BasenameNoSlash` | src/tableau_parser.py:42 | the recorded filename contains no '/', and a path without '/' is its own filename |
| `Text.BasenameIsLastSegment` | src/tableau_parser.py:42 | the filename is a suffix of the path, and when it is shorter than the path the character before it is '/' (the last path segment) |
| `TableauParsing.NonEmptyAttrsMembers` | src/tableau_parser.py:161-164 | the collected attribute values are exactly the non-empty values present |
| `TableauParsing.EmptyShelves` | src/tableau_parser.py:133-143 | the shelf dict starts with the eight keys, all empty |
| `TableauParsing.ShelfAttrPassStart` | src/tableau_parser.py:133-143 | before the shelf-attribute loop runs, the shelves are the eight empty lists the dict starts with |
| `TableauParsing.ShelfAttrPassStep` | src/tableau_parser.py:158-164 | one iteration of the shelf-attribute loop appends what the visited shelf is fed to that shelf and leaves the other seven unchanged |
| `TableauParsing.ShelfTokenContents` | src/tableau_parser.py:145-164 | the first pass does no duplicate check: each shelf holds exactly the non-empty names of the elements carrying its shelf token, repeats included |
| `TableauParsing.ShelfTokensNoEmptyName` | src/tableau_parser.py:163 | no shelf receives an empty name in the first pass |
| `TableauParsing.AddNewKeepsNames` | src/tableau_parser.py:171-179 | the pane pass keeps the shelf as a prefix and appends only non-empty names that are new and pairwise distinct, so that each name of the pane appears afterwards |
| `TableauParsing.PaneStepFeedsOneShelf` | src/tableau_parser.py:168-179 | a pane whose name mentions both columns and rows feeds only columns; shelves other than columns and rows never change |
| `TableauParsing.ExtractedShelves` | src/tableau_parser.py:132-181 | `_extract_shelves` returns all eight shelves and never holds an empty name |
| `TableauParsing.AppendNonEmpty` | src/tableau_parser.py:161-164 | the inner loop appends the non-empty values in order |
| `TableauParsing.AppendNewFields` | src/tableau_parser.py:171-174 | the pane loop appends each non-empty field name not yet present |
| `TableauParsing.ExtractShelves` | src/tableau_parser.py:132-181 | the two-pass method returns the specified shelves |
| `TableauParsing.ShelfTokenPass` | src/tableau_parser.py:158-164 | the first loop returns the first-pass shelves |
| `TableauParsing.PaneFieldPass` | src/tableau_parser.py:166-179 | the pane loop applies each pane's step in order |
| `TableauParsing.FiltersOfAt` | src/tableau_parser.py:188-201 | the filter record at each position is built from the filter element at that position (field defaults to '', type to 'categorical', values are the non-empty group-filter members) |
| `TableauParsing.ExtractFilters` | src/tableau_parser.py:183-203 | the outer loop yields one record per filter element, in order |
| `TableauParsing.ExtractFilter` | src/tableau_parser.py:189-201 | one filter's record, its values collected by the inner loop |
| `TableauParsing.RolesSound` | src/tableau_parser.py:209-220 | a name is a dimension (a measure) exactly when a named dependency column has role 'dimension' ('measure'); other roles and nameless columns are dropped |
| `TableauParsing.ClassifyPartitions` | src/tableau_parser.py:223-230 | in the fallback every shelf entry lands in exactly one list, a measure iff it contains SUM, AVG or COUNT (case-sensitive), so the two lengths add up to the number of entries |
| `TableauParsing.FieldUsageFallback` | src/tableau_parser.py:205-232 | the fallback is used exactly when the primary path found neither dimensions nor measures |
| `TableauParsing.ClassifyShelf` | src/tableau_parser.py:225-230 | the inner fallback loop extends the classification by one shelf |
| `TableauParsing.CollectRoles` | src/tableau_parser.py:211-220 | the primary loop returns the role split |
| `TableauParsing.ClassifyShelves` | src/tableau_parser.py:224-230 | the fallback loop classifies every shelf entry in shelf-key order |
| `TableauParsing.ExtractFieldUsage` | src/tableau_parser.py:205-232 | the method returns the specified dimension/measure split |
| `TableauParsing.VizTypeOfMarkClass` | src/tableau_parser.py:240-252 | the mark table gives one of six values, 'unknown' exactly for an unlisted class |
| `TableauParsing.InferVizType` | src/tableau_parser.py:234-252 | the inferred type is one of six values; it is not 'unknown' exactly when the first mark element has a listed class |
| `TableauParsing.InferVizTypeFromMarks` | src/tableau_parser.py:118-130 | the inferred type depends only on the recorded mark type of the first mark |
| `TableauParsing.WorksheetsOfAt` | src/tableau_parser.py:96-116 | the worksheet record at each position is built from the worksheet element at that position |
| `TableauParsing.ExtractWorksheet` | src/tableau_parser.py:101-114 | one worksheet's record, with its shelves, filters and field usage |
| `TableauParsing.ExtractWorksheets` | src/tableau_parser.py:96-116 | the loop yields one record per worksheet element, in document order |
| `TableauParsing.SummaryCountsWorksheets` | src/tableau_parser.py:75-94 | the worksheet count equals the number of worksheet records, and name and version default to 'Untitled' and 'Unknown' |
| `TableauParsing.ColumnsOfAt` | src/tableau_parser.py:280-293 | column record i takes name, datatype, role and type from column element i, each defaulting to the empty string |
| `TableauParsing.ConnectionInfoFirst` | src/tableau_parser.py:268-278 | the connection record is empty exactly when the datasource has no connection element below it, else its four attributes (default empty) come from the first such element in document order |
| `TableauParsing.ExtractColumnInfo` | src/tableau_parser.py:280-293 | the loop yields one column record per column element, in order |
| `TableauParsing.DatasourcesOfAt` | src/tableau_parser.py:254-266 | datasource record i takes its name (default "Unnamed"), its connection and its columns from datasource element i |
| `TableauParsing.ExtractDatasources` | src/tableau_parser.py:254-266 | the loop yields one record per datasource element, in order |
| `TableauParsing.EntryNames` | src/tableau_parser.py:67 | `namelist()` lists each entry's name in archive order |
| `TableauParsing.TwbNames` | src/tableau_parser.py:67 | the filtered names are exactly the entry names ending in '.twb' |
| `TableauParsing.LastNamed` | src/tableau_parser.py:72 | opening an entry by name gives an entry of that name, and no later entry has that name: the last of them, as `zipfile` does |
| `TableauParsing.ExtractTwbFails` | src/tableau_parser.py:68-70 | the archive is rejected exactly when no entry name ends in '.twb' |
| `TableauParsing.ExtractTwbSelectsFirst` | src/tableau_parser.py:63-73 | with distinct entry names, the document read is the first '.twb' entry's |
| `TableauParsing.FirstTwbIndex` | src/tableau_parser.py:67-71 | the first filtered name is the first entry name ending in '.twb' |
| `TableauParsing.LastNamedUnique` | src/tableau_parser.py:72 | with distinct names, opening an entry by its name gives that entry |
| `TableauParsing.ParseIsDeterministic` | src/tableau_parser.py:23-53 | parsing the same file twice succeeds or fails alike, and yields the same record apart from the identifier |
| `TableauParsing.TableauParser.constructor` | src/tableau_parser.py:19-20 | starts with an empty workbook cache |
| `TableauParsing.TableauParser.ParseWorkbook` | src/tableau_parser.py:23-57 | returns the parse result under a fresh identifier; on success it caches the record under that identifier, and on failure it leaves the cache unchanged |
| `TableauParsing.TableauParser.GetWorkbookData` | src/tableau_parser.py:59-61 | returns the cached record, or nothing exactly when the identifier is not cached |
| `VizGenerator.TemplatesMatchTheirType` | src/viz_generator.py:54-191 | exactly the seven types other than area chart, histogram and box plot have a template; each template's 'type' is its key's value and its code is that type's |
| `VizGenerator.GenerateD3ConfigCarries` | src/viz_generator.py:19-35 | on both paths the configuration's 'type' is the suggestion's chart type value and it carries mapping, title and description unchanged; it has code iff a template exists, and a message otherwise |
| `VizGenerator.ConfigGeometry` | src/viz_generator.py:54-205 | every configuration is 400 high; only the pie chart is 400 wide; exactly the pie chart and treemap have no margin; only the pie chart has radii |
| `VizGenerator.ConfigDependsOnFourFields` | src/viz_generator.py:19-35 | the configuration depends only on the chart type, mapping, title and description |
| `VizGenerator.VegaMarkTable` | src/viz_generator.py:258-269 | the mark is one of six Vega-Lite marks; "point" exactly for scatter plots and the three unlisted types, "bar" exactly for bar charts and histograms |
| `VizGenerator.VegaEncodingFilter` | src/viz_generator.py:271-287 | a channel exists iff the role is x, y, color or size and is mapped to a truthy value; it carries that value, nominal for x and color, quantitative for y and size |
| `VizGenerator.ExportFormats` | src/viz_generator.py:38-52 | exactly 'json', 'd3' and 'vega-lite' are accepted, each giving its own export; any other format is refused with an error naming it |
| `VizGenerator.D3ScriptIsTemplateCode` | src/viz_generator.py:222-231 | the script is the template's code, or the 'not available' comment for the three untemplated types; the configuration is the generated one |
| `VizGenerator.ExportsCopyMeta` | src/viz_generator.py:207-256 | the JSON and Vega-Lite exports copy identifier, confidence and rationale verbatim; the JSON chart type string converts back to the chart type |
| `VizGenerator.ExportAfterRehydrate` | src/viz_generator.py:38-52 | exporting a suggestion rebuilt from its dictionary gives the same export as the original |

## Left out

- File and archive I/O, UTF-8 decoding and XML text parsing are left out. A stored file is
  either unreadable, a text document or a list of archive entries. A document is undecodable,
  malformed or a parsed tree.
- The `raw_xml` field of the workbook record is left out. It is an opaque copy of the input text.
- `uuid.uuid4()` is modelled as a counter (`nextId`). Only the freshness of identifiers matters
  to the logic, and the counter gives that.
- `str.lower` is modelled as ASCII lower-casing. Unicode case mapping is a library table.
- Logging, and the try/except blocks that only log and re-raise, are left out.
- The D3 code templates, their styling entries (scales, axes, marks, colours) and the HTML
  wrapper are fixed string literals with no logic. A template's code is represented by the
  chart type it belongs to (`D3Code`).
- The generator's template dictionary is built once and never written, so it is the function
  `TemplateFor`. Because the model works on values, the fact that `generate_d3_config` writes
  only into a copy holds by construction.
- The unused `workbook_data` argument of `_analyze_worksheet` and of the rules is left out.
- The `encoding` entry of a worksheet's marks is always an empty dict, so it is not represented.
- `list.sort` (a library call) is modelled by a stable insertion-sort function with the same
  result. The in-place mutation of the local list is not modelled.
- The rule list is modelled as a list of function values, so the engine's loop calls the
  specification functions. `Rules.RuleTooManyCategories` is the imperative rendering of the one
  rule with a loop, and is proved equal to its function.
- Rule failures cannot happen in the model: every rule is total on a worksheet record. A
  worksheet dictionary without a `name` or `viz_type` key can make the rules raise `KeyError` in the
  original (src/viz_recommender.py:103, 112, 154, 196); the model's record always carries both,
  so that failure cannot be expressed (a missing `name` raises only once a rule fires and builds
  a title). A missing `dimensions` or `measures` key defaults to an
  empty list in the original (src/viz_recommender.py:69-70, 104, 146-147), which the model
  expresses as an empty list.
- An archive with two entries of the same name opens the last of them, as `zipfile` does.
  `ExtractTwbSelectsFirst` therefore assumes distinct entry names.
- The Flask routes, the desktop GUI, the configuration constants and the test scripts are
  outside the modelled core.
