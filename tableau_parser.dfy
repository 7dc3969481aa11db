/** The Tableau workbook parser: it turns a parsed workbook XML tree into the
    normalised WorkbookData record, and keeps every successfully parsed
    workbook in a cache keyed by its identifier.

    Each extraction step is a specification function over the tree; the steps
    that the original builds by appending in loops are also methods with the
    same loops, proved equal to their specification function. */
module TableauParsing {
  import opened Text
  import opened Xml
  import opened Workbook

  // ---------------------------------------------------------------------------
  // Shelves

  /** A shelves map holds all eight shelves. */
  predicate IsShelfMap(m: Shelves)
  {
    Columns in m && Rows in m && Color in m && Size in m && Shape in m && Label in m &&
    Detail in m && Tooltip in m
  }

  /** No shelf holds the empty field name. */
  predicate NoEmptyName(m: Shelves)
  {
    forall r :: r in m ==> "" !in m[r]
  }

  function EmptyShelves(): (m: Shelves)
    ensures IsShelfMap(m) && NoEmptyName(m)
    ensures forall r :: r in m ==> m[r] == []
  {
    map[Columns := [], Rows := [], Color := [], Size := [], Shape := [], Label := [],
        Detail := [], Tooltip := []]
  }

  /** The non-empty values of attribute `key` on `es`, in order; a missing
      attribute counts as empty. */
  function NonEmptyAttrs(es: seq<Element>, key: string): (r: seq<string>)
    ensures "" !in r
    ensures |r| <= |es|
  {
    if es == [] then []
    else
      var value := Get(es[|es| - 1], key, "");
      NonEmptyAttrs(es[..|es| - 1], key) + (if value != "" then [value] else [])
  }

  /** Exactly the non-empty attribute values occur in `NonEmptyAttrs`. */
  lemma {:induction false} NonEmptyAttrsMembers(es: seq<Element>, key: string)
    ensures forall x :: x in NonEmptyAttrs(es, key) <==>
      x != "" && exists i :: 0 <= i < |es| && Get(es[i], key, "") == x
  {
    if es != [] {
      var prefix := es[..|es| - 1];
      NonEmptyAttrsMembers(prefix, key);
      assert forall i :: 0 <= i < |prefix| ==> prefix[i] == es[i];
    }
  }

  /** The names each shelf receives in the first pass: the non-empty names
      of the elements carrying its token. */
  function ShelfFeeds(ws: Element): ShelfRole -> seq<string>
  {
    (k: ShelfRole) => NonEmptyAttrs(FindWithAttr(ws, "shelf", k.Token()), "name")
  }

  /** First pass: after the first `n` shelf tokens, in shelf order, each
      shelf whose token has been visited holds what it is fed and every other
      shelf is still empty. */
  function ShelfAttrPass(feeds: ShelfRole -> seq<string>, n: nat): (m: Shelves)
    requires n <= |ShelfOrder|
    ensures IsShelfMap(m)
  {
    map[Columns := Fed(feeds, n, Columns), Rows := Fed(feeds, n, Rows), Color := Fed(feeds, n, Color),
        Size := Fed(feeds, n, Size), Shape := Fed(feeds, n, Shape), Label := Fed(feeds, n, Label),
        Detail := Fed(feeds, n, Detail), Tooltip := Fed(feeds, n, Tooltip)]
  }

  /** Looking a shelf up in the first pass gives what it has been fed. */
  lemma ShelfAttrPassAt(feeds: ShelfRole -> seq<string>, n: nat, k: ShelfRole)
    requires n <= |ShelfOrder|
    ensures k in ShelfAttrPass(feeds, n) && ShelfAttrPass(feeds, n)[k] == Fed(feeds, n, k)
  {
    match k
    case Columns =>
    case Rows =>
    case Color =>
    case Size =>
    case Shape =>
    case Label =>
    case Detail =>
    case Tooltip =>
  }

  /** What shelf `k` holds after the first `n` shelf tokens. */
  function Fed(feeds: ShelfRole -> seq<string>, n: nat, k: ShelfRole): seq<string>
  {
    if k.Position() < n then feeds(k) else []
  }

  /** `acc` extended, in order, with each non-empty name of `fields` that it
      does not hold yet. */
  function AddNew(acc: seq<string>, fields: seq<Element>): (r: seq<string>)
  {
    if fields == [] then acc
    else
      var a := AddNew(acc, fields[..|fields| - 1]);
      var name := Get(fields[|fields| - 1], "name", "");
      if name != "" && name !in a then a + [name] else a
  }

  /** One pane of the second pass: a pane whose lower-cased name mentions
      "columns" feeds the columns shelf, otherwise one mentioning "rows" feeds
      the rows shelf. */
  function PaneStep(m: Shelves, pane: Element): (r: Shelves)
    requires IsShelfMap(m)
  {
    var paneName := Lower(Get(pane, "name", ""));
    if Contains(paneName, "columns") then m[Columns := AddNew(m[Columns], FindAll(pane, "field"))]
    else if Contains(paneName, "rows") then m[Rows := AddNew(m[Rows], FindAll(pane, "field"))]
    else m
  }

  /** Second pass over the panes, in order. */
  function PanePass(m: Shelves, panes: seq<Element>): (r: Shelves)
    requires IsShelfMap(m) && NoEmptyName(m)
    ensures IsShelfMap(r) && NoEmptyName(r)
  {
    if panes == [] then m
    else
      var prev := PanePass(m, panes[..|panes| - 1]);
      var pane := panes[|panes| - 1];
      AddNewKeepsNames(prev[Columns], FindAll(pane, "field"));
      AddNewKeepsNames(prev[Rows], FindAll(pane, "field"));
      PaneStep(prev, pane)
  }

  /** `_extract_shelves`: both passes. */
  function ExtractedShelves(ws: Element): (r: Shelves)
    ensures IsShelfMap(r) && NoEmptyName(r)
  {
    ShelfTokensNoEmptyName(ws);
    PanePass(ShelfAttrPass(ShelfFeeds(ws), |ShelfOrder|), FindAll(ws, "pane"))
  }

  /** What `AddNew` keeps: the old list as a prefix, then only names that are
      non-empty, new to the list, and pairwise distinct. */
  lemma {:induction false} AddNewKeepsNames(acc: seq<string>, fields: seq<Element>)
    ensures |acc| <= |AddNew(acc, fields)|
    ensures AddNew(acc, fields)[..|acc|] == acc
    ensures forall j :: |acc| <= j < |AddNew(acc, fields)| ==>
      AddNew(acc, fields)[j] != "" && AddNew(acc, fields)[j] !in acc
    ensures forall j, k :: |acc| <= j < k < |AddNew(acc, fields)| ==>
      AddNew(acc, fields)[j] != AddNew(acc, fields)[k]
    ensures forall x :: x in AddNew(acc, fields) <==> x in acc || x in NonEmptyAttrs(fields, "name")
  {
    if fields != [] {
      var prefix := fields[..|fields| - 1];
      AddNewKeepsNames(acc, prefix);
      var a := AddNew(acc, prefix);
      var name := Get(fields[|fields| - 1], "name", "");
      assert NonEmptyAttrs(fields, "name") ==
        NonEmptyAttrs(prefix, "name") + (if name != "" then [name] else []);
      if name != "" && name !in a {
        assert AddNew(acc, fields) == a + [name];
        assert forall j :: |acc| <= j < |a| ==> a[j] in a;
      }
    }
  }

  /** The first pass does no duplicate check: each shelf holds exactly the
      non-empty names of the elements carrying its token, repeats included. */
  lemma ShelfTokenContents(ws: Element, k: ShelfRole)
    ensures ShelfAttrPass(ShelfFeeds(ws), |ShelfOrder|)[k] ==
      NonEmptyAttrs(FindWithAttr(ws, "shelf", k.Token()), "name")
  {
    ShelfAttrPassAt(ShelfFeeds(ws), |ShelfOrder|, k);
    ShelfPositionInOrder(k);
  }

  /** No shelf holds an empty name after the first pass. */
  lemma ShelfTokensNoEmptyName(ws: Element)
    ensures NoEmptyName(ShelfAttrPass(ShelfFeeds(ws), |ShelfOrder|))
  {
    var m := ShelfAttrPass(ShelfFeeds(ws), |ShelfOrder|);
    forall k | k in m
      ensures "" !in m[k]
    {
      ShelfTokenContents(ws, k);
    }
  }

  /** Each shelf sits in the shelf order at its position. */
  lemma ShelfPositionInOrder(k: ShelfRole)
    ensures k.Position() < |ShelfOrder| && ShelfOrder[k.Position()] == k
  {
  }

  lemma ShelfOrderPosition(i: nat)
    requires i < |ShelfOrder|
    ensures ShelfOrder[i].Position() == i
  {
    assert i == 0 || i == 1 || i == 2 || i == 3 || i == 4 || i == 5 || i == 6 || i == 7;
  }

  /** A pane whose name mentions both "columns" and "rows" feeds only the
      columns shelf; every shelf other than the one fed is unchanged. */
  lemma PaneStepFeedsOneShelf(m: Shelves, pane: Element)
    requires IsShelfMap(m)
    ensures Contains(Lower(Get(pane, "name", "")), "columns") ==>
      PaneStep(m, pane)[Rows] == m[Rows]
    ensures forall k :: k in m && k != Columns && k != Rows ==> PaneStep(m, pane)[k] == m[k]
    ensures PaneStep(m, pane).Keys == m.Keys
  {
  }

  /** The inner loop of the first pass (over elements carrying a shelf
      token) and of filter extraction (over group filters): append each
      non-empty value of attribute `key`. */
  method AppendNonEmpty(acc: seq<string>, es: seq<Element>, key: string) returns (r: seq<string>)
    ensures r == acc + NonEmptyAttrs(es, key)
  {
    r := acc;
    var j := 0;
    while j < |es|
      invariant 0 <= j <= |es|
      invariant r == acc + NonEmptyAttrs(es[..j], key)
    {
      var value := Get(es[j], key, "");
      if value != "" {
        r := r + [value];
      }
      assert es[..j + 1][..j] == es[..j];
      j := j + 1;
    }
    assert es[..j] == es;
  }

  /** The inner loop of the second pass. */
  method AppendNewFields(shelf: seq<string>, fields: seq<Element>) returns (r: seq<string>)
    ensures r == AddNew(shelf, fields)
  {
    r := shelf;
    var j := 0;
    while j < |fields|
      invariant 0 <= j <= |fields|
      invariant r == AddNew(shelf, fields[..j])
    {
      var name := Get(fields[j], "name", "");
      if name != "" && name !in r {
        r := r + [name];
      }
      assert fields[..j + 1][..j] == fields[..j];
      j := j + 1;
    }
    assert fields[..j] == fields;
  }

  /** `_extract_shelves`. */
  method ExtractShelves(ws: Element) returns (shelves: Shelves)
    ensures shelves == ExtractedShelves(ws)
  {
    var first := ShelfTokenPass(ws);
    ShelfTokensNoEmptyName(ws);
    shelves := PaneFieldPass(first, FindAll(ws, "pane"));
  }

  /** The first loop of `_extract_shelves`. */
  method ShelfTokenPass(ws: Element) returns (shelves: Shelves)
    ensures shelves == ShelfAttrPass(ShelfFeeds(ws), |ShelfOrder|)
  {
    ghost var feeds := ShelfFeeds(ws);
    shelves := EmptyShelves();
    ShelfAttrPassStart(feeds);
    var i := 0;
    while i < |ShelfOrder|
      invariant 0 <= i <= |ShelfOrder|
      invariant shelves == ShelfAttrPass(feeds, i)
    {
      var key := ShelfOrder[i];
      var fed := AppendNonEmpty(shelves[key], FindWithAttr(ws, "shelf", key.Token()), "name");
      assert fed == shelves[key] + feeds(key);
      ShelfAttrPassStep(feeds, i);
      shelves := shelves[key := fed];
      i := i + 1;
    }
  }

  lemma ShelfAttrPassStep(feeds: ShelfRole -> seq<string>, i: nat)
    requires i < |ShelfOrder|
    ensures ShelfAttrPass(feeds, i + 1) ==
      ShelfAttrPass(feeds, i)[ShelfOrder[i] := ShelfAttrPass(feeds, i)[ShelfOrder[i]] + feeds(ShelfOrder[i])]
  {
    var prev, next := ShelfAttrPass(feeds, i), ShelfAttrPass(feeds, i + 1);
    var key := ShelfOrder[i];
    var stepped := prev[key := prev[key] + feeds(key)];
    ShelfOrderPosition(i);
    forall k | k in next
      ensures k in stepped && next[k] == stepped[k]
    {
      if k != key {
        ShelfPositionInOrder(k);
        assert k.Position() != i;
      }
    }
    assert next.Keys == stepped.Keys;
  }

  /** Before the loop no shelf has been visited: all eight are empty. */
  lemma ShelfAttrPassStart(feeds: ShelfRole -> seq<string>)
    ensures ShelfAttrPass(feeds, 0) == EmptyShelves()
  {
    var m := ShelfAttrPass(feeds, 0);
    forall k | k in EmptyShelves()
      ensures k in m && m[k] == []
    {
      ShelfPositionInOrder(k);
    }
    assert m.Keys == EmptyShelves().Keys;
  }

  /** The second loop of `_extract_shelves`. */
  method PaneFieldPass(m: Shelves, panes: seq<Element>) returns (shelves: Shelves)
    requires IsShelfMap(m) && NoEmptyName(m)
    ensures shelves == PanePass(m, panes)
  {
    shelves := m;
    var i := 0;
    while i < |panes|
      invariant 0 <= i <= |panes|
      invariant shelves == PanePass(m, panes[..i])
    {
      var pane := panes[i];
      PanePassStep(m, panes, i);
      var paneName := Lower(Get(pane, "name", ""));
      if Contains(paneName, "columns") {
        var columns := AppendNewFields(shelves[Columns], FindAll(pane, "field"));
        shelves := shelves[Columns := columns];
      } else if Contains(paneName, "rows") {
        var rows := AppendNewFields(shelves[Rows], FindAll(pane, "field"));
        shelves := shelves[Rows := rows];
      }
      i := i + 1;
    }
    assert panes[..i] == panes;
  }

  /** One more pane of the second pass is one more `PaneStep`. */
  lemma PanePassStep(m: Shelves, panes: seq<Element>, i: nat)
    requires IsShelfMap(m) && NoEmptyName(m) && i < |panes|
    ensures IsShelfMap(PanePass(m, panes[..i]))
    ensures PanePass(m, panes[..i + 1]) == PaneStep(PanePass(m, panes[..i]), panes[i])
  {
    assert panes[..i + 1][..i] == panes[..i];
  }

  // ---------------------------------------------------------------------------
  // Filters

  /** One filter element: its column (default empty), its class (default
      "categorical") and the non-empty members of its group filters. */
  function FilterOf(f: Element): Filter
  {
    Filter(Get(f, "column", ""), Get(f, "class", "categorical"),
           NonEmptyAttrs(FindAll(f, "groupfilter"), "member"))
  }

  function FiltersOf(fs: seq<Element>): (r: seq<Filter>)
    ensures |r| == |fs|
  {
    if fs == [] then [] else FiltersOf(fs[..|fs| - 1]) + [FilterOf(fs[|fs| - 1])]
  }

  /** `_extract_filters`: one record per filter element below the worksheet,
      in document order. */
  function Filters(ws: Element): seq<Filter>
  {
    FiltersOf(FindAll(ws, "filter"))
  }

  /** The filter record at each position is built from the filter element
      at that position. */
  lemma {:induction false} FiltersOfAt(fs: seq<Element>, i: nat)
    requires i < |fs|
    ensures FiltersOf(fs)[i] == FilterOf(fs[i])
  {
    if i < |fs| - 1 {
      var prefix := fs[..|fs| - 1];
      FiltersOfAt(prefix, i);
    }
  }

  /** `_extract_filters`: the outer loop over filter elements. */
  method ExtractFilters(ws: Element) returns (filters: seq<Filter>)
    ensures filters == Filters(ws)
  {
    filters := [];
    var elements := FindAll(ws, "filter");
    var i := 0;
    while i < |elements|
      invariant 0 <= i <= |elements|
      invariant filters == FiltersOf(elements[..i])
    {
      var filter := ExtractFilter(elements[i]);
      FiltersOfStep(elements, i);
      filters := filters + [filter];
      i := i + 1;
    }
    assert elements[..i] == elements;
  }

  /** The body of the outer loop, with the inner loop over group filters. */
  method ExtractFilter(f: Element) returns (filter: Filter)
    ensures filter == FilterOf(f)
  {
    var values := AppendNonEmpty([], FindAll(f, "groupfilter"), "member");
    assert values == NonEmptyAttrs(FindAll(f, "groupfilter"), "member");
    filter := Filter(Get(f, "column", ""), Get(f, "class", "categorical"), values);
  }

  lemma FiltersOfStep(fs: seq<Element>, i: nat)
    requires i < |fs|
    ensures FiltersOf(fs[..i + 1]) == FiltersOf(fs[..i]) + [FilterOf(fs[i])]
  {
    assert fs[..i + 1][..i] == fs[..i];
  }

  // ---------------------------------------------------------------------------
  // Dimensions and measures

  /** `findall('.//datasource-dependencies/.//column')`: for each dependency
      section in document order, the columns below it. */
  function ColumnsUnder(sections: seq<Element>): seq<Element>
  {
    if sections == [] then []
    else ColumnsUnder(sections[..|sections| - 1]) + FindAll(sections[|sections| - 1], "column")
  }

  function DependencyColumns(ws: Element): seq<Element>
  {
    ColumnsUnder(FindAll(ws, "datasource-dependencies"))
  }

  /** Primary path: named columns with role "dimension" or "measure", in
      order, as (dimensions, measures). */
  function Roles(cols: seq<Element>): (r: (seq<string>, seq<string>))
  {
    if cols == [] then ([], [])
    else
      var prev := Roles(cols[..|cols| - 1]);
      var c := cols[|cols| - 1];
      var name := Get(c, "name", "");
      var role := Get(c, "role", "");
      if name == "" then prev
      else if role == "measure" then (prev.0, prev.1 + [name])
      else if role == "dimension" then (prev.0 + [name], prev.1)
      else prev
  }

  /** A column's name lands in the list of its role, and nothing else does. */
  predicate HasRole(cols: seq<Element>, x: string, role: string)
  {
    exists i :: 0 <= i < |cols| && Get(cols[i], "name", "") == x && Get(cols[i], "role", "") == role
  }

  lemma {:induction false} RolesSound(cols: seq<Element>)
    ensures |Roles(cols).0| + |Roles(cols).1| <= |cols|
    ensures forall x :: x in Roles(cols).0 <==> x != "" && HasRole(cols, x, "dimension")
    ensures forall x :: x in Roles(cols).1 <==> x != "" && HasRole(cols, x, "measure")
  {
    if cols != [] {
      var prefix := cols[..|cols| - 1];
      RolesSound(prefix);
      assert forall i :: 0 <= i < |prefix| ==> prefix[i] == cols[i];
      forall x, role | HasRole(cols, x, role) && !HasRole(prefix, x, role)
        ensures Get(cols[|cols| - 1], "name", "") == x && Get(cols[|cols| - 1], "role", "") == role
      {
      }
    }
  }

  /** The fallback's aggregation test; case-sensitive. */
  predicate IsAggregated(name: string)
  {
    ContainsAny(name, ["SUM", "AVG", "COUNT"])
  }

  /** The fields of the first `n` shelves, in shelf-key order. */
  function ShelfEntries(m: Shelves, n: nat): seq<string>
    requires IsShelfMap(m) && n <= |ShelfOrder|
  {
    if n == 0 then [] else ShelfEntries(m, n - 1) + m[ShelfOrder[n - 1]]
  }

  /** Fallback path: aggregated names are measures, all others dimensions. */
  function ClassifyByName(names: seq<string>): (r: (seq<string>, seq<string>))
  {
    if names == [] then ([], [])
    else
      var prev := ClassifyByName(names[..|names| - 1]);
      var name := names[|names| - 1];
      if IsAggregated(name) then (prev.0, prev.1 + [name]) else (prev.0 + [name], prev.1)
  }

  /** The fallback puts every entry in exactly one of the two lists. */
  lemma {:induction false} ClassifyPartitions(names: seq<string>)
    ensures |ClassifyByName(names).0| + |ClassifyByName(names).1| == |names|
    ensures multiset(ClassifyByName(names).0) + multiset(ClassifyByName(names).1) == multiset(names)
    ensures forall x :: x in ClassifyByName(names).1 ==> IsAggregated(x)
    ensures forall x :: x in ClassifyByName(names).0 ==> !IsAggregated(x)
  {
    if names != [] {
      var prefix := names[..|names| - 1];
      ClassifyPartitions(prefix);
      assert names == prefix + [names[|names| - 1]];
    }
  }

  /** `_extract_field_usage` as (dimensions, measures). */
  function FieldUsage(ws: Element): (seq<string>, seq<string>)
  {
    var primary := Roles(DependencyColumns(ws));
    if primary.0 == [] && primary.1 == [] then ClassifyByName(ShelfEntries(ExtractedShelves(ws), |ShelfOrder|))
    else primary
  }

  /** The fallback runs only when the primary path found nothing; then the two
      lists together hold every shelf entry, each in exactly one list. */
  lemma FieldUsageFallback(ws: Element)
    ensures var primary := Roles(DependencyColumns(ws));
      primary != ([], []) ==> FieldUsage(ws) == primary
    ensures var primary := Roles(DependencyColumns(ws));
      var entries := ShelfEntries(ExtractedShelves(ws), |ShelfOrder|);
      primary == ([], []) ==>
        && |FieldUsage(ws).0| + |FieldUsage(ws).1| == |entries|
        && multiset(FieldUsage(ws).0) + multiset(FieldUsage(ws).1) == multiset(entries)
        && (forall x :: x in FieldUsage(ws).1 <==> x in entries && IsAggregated(x))
        && (forall x :: x in FieldUsage(ws).0 <==> x in entries && !IsAggregated(x))
  {
    var entries := ShelfEntries(ExtractedShelves(ws), |ShelfOrder|);
    ClassifyPartitions(entries);
    var r := ClassifyByName(entries);
    forall x
      ensures x in r.1 || x in r.0 <==> x in entries
    {
      assert x in multiset(entries) <==> x in multiset(r.0) + multiset(r.1);
    }
  }

  /** The inner loop of the fallback: classify the entries of one shelf. */
  method ClassifyShelf(ghost done: seq<string>, dimensions: seq<string>, measures: seq<string>,
                       shelf: seq<string>)
    returns (dimensions': seq<string>, measures': seq<string>)
    requires (dimensions, measures) == ClassifyByName(done)
    ensures (dimensions', measures') == ClassifyByName(done + shelf)
  {
    dimensions', measures' := dimensions, measures;
    var j := 0;
    assert done + shelf[..0] == done;
    while j < |shelf|
      invariant 0 <= j <= |shelf|
      invariant (dimensions', measures') == ClassifyByName(done + shelf[..j])
    {
      var name := shelf[j];
      if IsAggregated(name) {
        measures' := measures' + [name];
      } else {
        dimensions' := dimensions' + [name];
      }
      assert (done + shelf[..j + 1])[..|done + shelf[..j + 1]| - 1] == done + shelf[..j];
      j := j + 1;
    }
    assert shelf[..j] == shelf;
  }

  /** The primary loop of `_extract_field_usage`. */
  method CollectRoles(cols: seq<Element>) returns (dimensions: seq<string>, measures: seq<string>)
    ensures (dimensions, measures) == Roles(cols)
  {
    dimensions, measures := [], [];
    var i := 0;
    while i < |cols|
      invariant 0 <= i <= |cols|
      invariant (dimensions, measures) == Roles(cols[..i])
    {
      var name := Get(cols[i], "name", "");
      var role := Get(cols[i], "role", "");
      if name != "" {
        if role == "measure" {
          measures := measures + [name];
        } else if role == "dimension" {
          dimensions := dimensions + [name];
        }
      }
      assert cols[..i + 1][..i] == cols[..i];
      i := i + 1;
    }
    assert cols[..i] == cols;
  }

  /** The fallback loop of `_extract_field_usage`, shelf by shelf. */
  method ClassifyShelves(shelves: Shelves) returns (dimensions: seq<string>, measures: seq<string>)
    requires IsShelfMap(shelves)
    ensures (dimensions, measures) == ClassifyByName(ShelfEntries(shelves, |ShelfOrder|))
  {
    dimensions, measures := [], [];
    var k := 0;
    while k < |ShelfOrder|
      invariant 0 <= k <= |ShelfOrder|
      invariant (dimensions, measures) == ClassifyByName(ShelfEntries(shelves, k))
    {
      dimensions, measures := ClassifyShelf(ShelfEntries(shelves, k), dimensions, measures,
                                            shelves[ShelfOrder[k]]);
      k := k + 1;
    }
  }

  /** `_extract_field_usage`. */
  method ExtractFieldUsage(ws: Element) returns (dimensions: seq<string>, measures: seq<string>)
    ensures (dimensions, measures) == FieldUsage(ws)
  {
    dimensions, measures := CollectRoles(DependencyColumns(ws));
    if dimensions == [] && measures == [] {
      var shelves := ExtractShelves(ws);
      dimensions, measures := ClassifyShelves(shelves);
    }
  }

  // ---------------------------------------------------------------------------
  // Marks and chart type

  /** The chart type each recognised mark class stands for. */
  const MarkClassTable: map<string, string> :=
    map["Bar" := "bar_chart", "Line" := "line_chart", "Circle" := "scatter_plot",
        "Square" := "heatmap", "Pie" := "pie_chart"]

  /** Every value `InferVizType` can return. */
  const InferredVizTypes: set<string> :=
    {"bar_chart", "line_chart", "scatter_plot", "heatmap", "pie_chart", "unknown"}

  function VizTypeOfMarkClass(cls: string): (r: string)
    ensures r in InferredVizTypes
    ensures r == "unknown" <==> cls !in MarkClassTable
  {
    if cls in MarkClassTable then MarkClassTable[cls] else "unknown"
  }

  /** `_extract_marks`: the class of the first mark element, else "automatic". */
  function ExtractMarks(ws: Element): Marks
  {
    match Find(ws, "mark")
    case None => Marks("automatic")
    case Some(mark) => Marks(Get(mark, "class", "automatic"))
  }

  /** `_infer_viz_type`: only the first mark's class is consulted. */
  function InferVizType(ws: Element): (r: string)
    ensures r in InferredVizTypes
    ensures r != "unknown" <==>
      Find(ws, "mark").Some? && Get(Find(ws, "mark").value, "class", "automatic") in MarkClassTable
  {
    match Find(ws, "mark")
    case None => "unknown"
    case Some(mark) => VizTypeOfMarkClass(Get(mark, "class", "automatic"))
  }

  /** The inferred type is a function of the recorded mark type alone. */
  lemma InferVizTypeFromMarks(ws: Element)
    ensures InferVizType(ws) == VizTypeOfMarkClass(ExtractMarks(ws).markType)
  {
  }

  // ---------------------------------------------------------------------------
  // Worksheets and summary

  function WorksheetOf(ws: Element): Worksheet
  {
    var usage := FieldUsage(ws);
    Worksheet(Get(ws, "name", "Unnamed"), ExtractMarks(ws), ExtractedShelves(ws), Filters(ws),
              InferVizType(ws), usage.0, usage.1)
  }

  function WorksheetsOf(es: seq<Element>): (r: seq<Worksheet>)
    ensures |r| == |es|
  {
    if es == [] then [] else WorksheetsOf(es[..|es| - 1]) + [WorksheetOf(es[|es| - 1])]
  }

  /** The worksheet record at each position is built from the worksheet
      element at that position. */
  lemma {:induction false} WorksheetsOfAt(es: seq<Element>, i: nat)
    requires i < |es|
    ensures WorksheetsOf(es)[i] == WorksheetOf(es[i])
  {
    if i < |es| - 1 {
      var prefix := es[..|es| - 1];
      WorksheetsOfAt(prefix, i);
      assert prefix[i] == es[i];
    }
  }

  /** `_extract_worksheets`: one record per worksheet element, in order. */
  function Worksheets(root: Element): seq<Worksheet>
  {
    WorksheetsOf(FindAll(root, "worksheet"))
  }

  /** The body of the worksheet loop: one worksheet record. */
  method ExtractWorksheet(ws: Element) returns (w: Worksheet)
    ensures w == WorksheetOf(ws)
  {
    var shelves := ExtractShelves(ws);
    var filters := ExtractFilters(ws);
    var dimensions, measures := ExtractFieldUsage(ws);
    w := Worksheet(Get(ws, "name", "Unnamed"), ExtractMarks(ws), shelves, filters, InferVizType(ws),
                   dimensions, measures);
  }

  lemma WorksheetsOfStep(es: seq<Element>, i: nat)
    requires i < |es|
    ensures WorksheetsOf(es[..i + 1]) == WorksheetsOf(es[..i]) + [WorksheetOf(es[i])]
  {
    assert es[..i + 1][..i] == es[..i];
  }

  method ExtractWorksheets(root: Element) returns (worksheets: seq<Worksheet>)
    ensures worksheets == Worksheets(root)
  {
    worksheets := [];
    var elements := FindAll(root, "worksheet");
    var i := 0;
    while i < |elements|
      invariant 0 <= i <= |elements|
      invariant worksheets == WorksheetsOf(elements[..i])
    {
      var w := ExtractWorksheet(elements[i]);
      WorksheetsOfStep(elements, i);
      worksheets := worksheets + [w];
      i := i + 1;
    }
    assert worksheets == WorksheetsOf(elements) by { assert elements[..i] == elements; }
  }

  /** `_extract_workbook_summary`. */
  function ExtractWorkbookSummary(root: Element): Summary
  {
    Summary(Get(root, "name", "Untitled"), Get(root, "version", "Unknown"),
            |FindAll(root, "worksheet")|, |FindAll(root, "dashboard")|, |FindAll(root, "story")|)
  }

  /** The worksheet count and the worksheet list come from the same query. */
  lemma SummaryCountsWorksheets(root: Element)
    ensures ExtractWorkbookSummary(root).worksheetCount == |Worksheets(root)|
    ensures ExtractWorkbookSummary(root).name == (if "name" in root.attrs then root.attrs["name"] else "Untitled")
    ensures ExtractWorkbookSummary(root).version == (if "version" in root.attrs then root.attrs["version"] else "Unknown")
  {
  }

  // ---------------------------------------------------------------------------
  // Datasources

  /** `_extract_connection_info`: the first connection element's four
      attributes (default empty), or the empty record. */
  function ConnectionInfo(ds: Element): Connection
  {
    match Find(ds, "connection")
    case None => NoConnection
    case Some(c) => Connection(Get(c, "class", ""), Get(c, "dbname", ""), Get(c, "server", ""),
                               Get(c, "username", ""))
  }

  function ColumnOf(c: Element): Column
  {
    Column(Get(c, "name", ""), Get(c, "datatype", ""), Get(c, "role", ""), Get(c, "type", ""))
  }

  function ColumnsOf(cs: seq<Element>): (r: seq<Column>)
    ensures |r| == |cs|
  {
    if cs == [] then [] else ColumnsOf(cs[..|cs| - 1]) + [ColumnOf(cs[|cs| - 1])]
  }

  /** The column record at each position takes its four attributes, each
      defaulting to the empty string, from the column element at that position. */
  lemma {:induction false} ColumnsOfAt(cs: seq<Element>, i: nat)
    requires i < |cs|
    ensures ColumnsOf(cs)[i].name == Get(cs[i], "name", "")
    ensures ColumnsOf(cs)[i].dataType == Get(cs[i], "datatype", "")
    ensures ColumnsOf(cs)[i].role == Get(cs[i], "role", "")
    ensures ColumnsOf(cs)[i].kind == Get(cs[i], "type", "")
  {
    if i < |cs| - 1 {
      var prefix := cs[..|cs| - 1];
      ColumnsOfAt(prefix, i);
      assert prefix[i] == cs[i];
    }
  }

  /** The connection record is empty exactly when the datasource has no
      `connection` element below it; otherwise its four attributes (default
      empty) come from the first such element in document order. */
  lemma ConnectionInfoFirst(ds: Element)
    ensures ConnectionInfo(ds).NoConnection? <==> forall x :: x in Descendants(ds) ==> x.tag != "connection"
    ensures ConnectionInfo(ds).Connection? ==> exists k :: (0 <= k < |Descendants(ds)| &&
      Descendants(ds)[k].tag == "connection" &&
      (forall j :: 0 <= j < k ==> Descendants(ds)[j].tag != "connection") &&
      ConnectionInfo(ds).cls == Get(Descendants(ds)[k], "class", "") &&
      ConnectionInfo(ds).dbname == Get(Descendants(ds)[k], "dbname", "") &&
      ConnectionInfo(ds).server == Get(Descendants(ds)[k], "server", "") &&
      ConnectionInfo(ds).username == Get(Descendants(ds)[k], "username", ""))
  {
    match Find(ds, "connection")
    case None =>
    case Some(c) =>
      var k :| 0 <= k < |Descendants(ds)| && Descendants(ds)[k] == c &&
        forall j :: 0 <= j < k ==> Descendants(ds)[j].tag != "connection";
      assert Descendants(ds)[k].tag == "connection";
  }

  /** `_extract_column_info`. */
  function ColumnInfo(ds: Element): seq<Column>
  {
    ColumnsOf(FindAll(ds, "column"))
  }

  method ExtractColumnInfo(ds: Element) returns (columns: seq<Column>)
    ensures columns == ColumnInfo(ds)
  {
    columns := [];
    var elements := FindAll(ds, "column");
    var i := 0;
    while i < |elements|
      invariant 0 <= i <= |elements|
      invariant columns == ColumnsOf(elements[..i])
    {
      var c := elements[i];
      columns := columns + [Column(Get(c, "name", ""), Get(c, "datatype", ""), Get(c, "role", ""),
                                   Get(c, "type", ""))];
      assert elements[..i + 1][..i] == elements[..i];
      i := i + 1;
    }
    assert elements[..i] == elements;
  }

  function DatasourceOf(ds: Element): Datasource
  {
    Datasource(Get(ds, "name", "Unnamed"), ConnectionInfo(ds), ColumnInfo(ds))
  }

  function DatasourcesOf(es: seq<Element>): (r: seq<Datasource>)
    ensures |r| == |es|
  {
    if es == [] then [] else DatasourcesOf(es[..|es| - 1]) + [DatasourceOf(es[|es| - 1])]
  }

  /** The datasource record at each position is built from the datasource
      element at that position: its name (default "Unnamed"), its connection
      and its columns. */
  lemma {:induction false} DatasourcesOfAt(es: seq<Element>, i: nat)
    requires i < |es|
    ensures DatasourcesOf(es)[i].name == Get(es[i], "name", "Unnamed")
    ensures DatasourcesOf(es)[i].connection == ConnectionInfo(es[i])
    ensures DatasourcesOf(es)[i].columns == ColumnsOf(FindAll(es[i], "column"))
  {
    if i < |es| - 1 {
      var prefix := es[..|es| - 1];
      DatasourcesOfAt(prefix, i);
      assert prefix[i] == es[i];
    }
  }

  /** `_extract_datasources`. */
  function Datasources(root: Element): seq<Datasource>
  {
    DatasourcesOf(FindAll(root, "datasource"))
  }

  method ExtractDatasources(root: Element) returns (datasources: seq<Datasource>)
    ensures datasources == Datasources(root)
  {
    datasources := [];
    var elements := FindAll(root, "datasource");
    var i := 0;
    while i < |elements|
      invariant 0 <= i <= |elements|
      invariant datasources == DatasourcesOf(elements[..i])
    {
      var ds := elements[i];
      var columns := ExtractColumnInfo(ds);
      datasources := datasources + [Datasource(Get(ds, "name", "Unnamed"), ConnectionInfo(ds), columns)];
      assert elements[..i + 1][..i] == elements[..i];
      i := i + 1;
    }
    assert elements[..i] == elements;
  }

  // ---------------------------------------------------------------------------
  // Reading the document

  /** What reading and parsing a stored document yields: it is not UTF-8, it
      is not well-formed XML, or it is the tree rooted at `root`. */
  datatype Document = Undecodable | Malformed | WellFormed(root: Element)

  datatype ArchiveEntry = ArchiveEntry(name: string, document: Document)

  /** The file at the given path, as the file system presents it. */
  datatype StoredFile =
    | Unreadable
    | TextFile(document: Document)
    | ZipArchive(entries: seq<ArchiveEntry>)

  datatype ParseError = ReadFailure | NoTwbInArchive | MalformedDocument

  /** `namelist()`. */
  function EntryNames(entries: seq<ArchiveEntry>): (r: seq<string>)
    ensures |r| == |entries|
    ensures forall i :: 0 <= i < |entries| ==> r[i] == entries[i].name
  {
    if entries == [] then [] else [entries[0].name] + EntryNames(entries[1..])
  }

  /** The names ending in ".twb", in archive order. */
  function TwbNames(names: seq<string>): (r: seq<string>)
    ensures forall x :: x in r <==> x in names && EndsWith(x, ".twb")
  {
    if names == [] then []
    else if EndsWith(names[0], ".twb") then [names[0]] + TwbNames(names[1..])
    else TwbNames(names[1..])
  }

  /** Opening an entry by name yields the last entry of that name. */
  function LastNamed(entries: seq<ArchiveEntry>, name: string): (e: ArchiveEntry)
    requires exists i :: 0 <= i < |entries| && entries[i].name == name
    ensures e in entries && e.name == name
    ensures exists k :: (0 <= k < |entries| && entries[k] == e &&
      forall j :: k < j < |entries| ==> entries[j].name != name)
  {
    var last := entries[|entries| - 1];
    if last.name == name then last
    else
      var prefix := entries[..|entries| - 1];
      var i :| 0 <= i < |entries| && entries[i].name == name;
      assert prefix[i] == entries[i];
      var e := LastNamed(prefix, name);
      var k :| 0 <= k < |prefix| && prefix[k] == e && forall j :: k < j < |prefix| ==> prefix[j].name != name;
      assert entries[k] == e;
      assert forall j :: k < j < |entries| - 1 ==> entries[j] == prefix[j];
      e
  }

  /** `_extract_twb_from_twbx`, after the archive has been opened. */
  function ExtractTwb(entries: seq<ArchiveEntry>): Result<Document, ParseError>
  {
    var twb := TwbNames(EntryNames(entries));
    if twb == [] then Failure(NoTwbInArchive)
    else
      assert twb[0] in twb;
      Success(LastNamed(entries, twb[0]).document)
  }

  /** Reading the archive fails exactly when no entry name ends in ".twb". */
  lemma {:induction false} ExtractTwbFails(entries: seq<ArchiveEntry>)
    ensures ExtractTwb(entries) == Failure(NoTwbInArchive) <==>
      forall i :: 0 <= i < |entries| ==> !EndsWith(entries[i].name, ".twb")
  {
    var names := EntryNames(entries);
    if exists i :: 0 <= i < |entries| && EndsWith(entries[i].name, ".twb") {
      var i :| 0 <= i < |entries| && EndsWith(entries[i].name, ".twb");
      assert names[i] in TwbNames(names);
    } else if TwbNames(names) != [] {
      assert TwbNames(names)[0] in TwbNames(names);
    }
  }

  /** When entry names are distinct, the document read is that of the first
      entry whose name ends in ".twb". */
  lemma {:induction false} ExtractTwbSelectsFirst(entries: seq<ArchiveEntry>, i: nat)
    requires forall j, k :: 0 <= j < k < |entries| ==> entries[j].name != entries[k].name
    requires i < |entries| && EndsWith(entries[i].name, ".twb")
    requires forall j :: 0 <= j < i ==> !EndsWith(entries[j].name, ".twb")
    ensures ExtractTwb(entries) == Success(entries[i].document)
  {
    var names := EntryNames(entries);
    assert names[i] in TwbNames(names);
    var first := FirstTwbIndex(names);
    assert first == i;
    LastNamedUnique(entries, first);
  }

  /** The head of `TwbNames` is the name at the first ".twb" index. */
  lemma {:induction false} FirstTwbIndex(names: seq<string>) returns (k: nat)
    requires TwbNames(names) != []
    ensures k < |names| && names[k] == TwbNames(names)[0] && EndsWith(names[k], ".twb")
    ensures forall j :: 0 <= j < k ==> !EndsWith(names[j], ".twb")
  {
    if EndsWith(names[0], ".twb") {
      k := 0;
    } else {
      var k' := FirstTwbIndex(names[1..]);
      k := k' + 1;
    }
  }

  /** With distinct names, the entry opened by name is the one at that index. */
  lemma {:induction false} LastNamedUnique(entries: seq<ArchiveEntry>, k: nat)
    requires k < |entries|
    requires forall i, j :: 0 <= i < j < |entries| ==> entries[i].name != entries[j].name
    ensures LastNamed(entries, entries[k].name) == entries[k]
  {
    if k < |entries| - 1 {
      var prefix := entries[..|entries| - 1];
      assert prefix[k] == entries[k];
      LastNamedUnique(prefix, k);
    }
  }

  /** The tree a stored document yields, or why it yields none. */
  function DocumentRoot(doc: Document): Result<Element, ParseError>
  {
    match doc
    case Undecodable => Failure(ReadFailure)
    case Malformed => Failure(MalformedDocument)
    case WellFormed(root) => Success(root)
  }

  /** A path ending in ".twbx" is opened as an archive, anything else is read
      as UTF-8 text; a file that cannot be read the chosen way is a read
      failure. */
  function ReadRoot(filepath: string, file: StoredFile): Result<Element, ParseError>
  {
    if EndsWith(filepath, ".twbx") then
      match file
      case ZipArchive(entries) =>
        (match ExtractTwb(entries)
         case Failure(e) => Failure(e)
         case Success(doc) => DocumentRoot(doc))
      case _ => Failure(ReadFailure)
    else
      match file
      case TextFile(doc) => DocumentRoot(doc)
      case _ => Failure(ReadFailure)
  }

  /** What `parse_workbook` returns when it draws identifier `id`. */
  function ParseResult(filepath: string, file: StoredFile, id: nat): Result<WorkbookData, ParseError>
  {
    match ReadRoot(filepath, file)
    case Failure(e) => Failure(e)
    case Success(root) =>
      Success(WorkbookData(id, Basename(filepath), ExtractWorkbookSummary(root), Worksheets(root),
                           Datasources(root)))
  }

  /** Parsing the same file twice yields the same content under different
      identifiers. */
  lemma ParseIsDeterministic(filepath: string, file: StoredFile, id1: nat, id2: nat)
    ensures ParseResult(filepath, file, id1).Success? == ParseResult(filepath, file, id2).Success?
    ensures ParseResult(filepath, file, id1).Success? ==>
      ParseResult(filepath, file, id1).value.(id := id2) == ParseResult(filepath, file, id2).value
  {
  }

  // ---------------------------------------------------------------------------
  // The parser object and its cache

  class TableauParser {
    /** Every workbook parsed so far, by identifier. */
    var workbookCache: map<nat, WorkbookData>
    /** The next identifier to draw; stands for the random identifier source. */
    var nextId: nat

    ghost predicate Valid()
      reads this
    {
      forall id :: id in workbookCache ==> id < nextId && workbookCache[id].id == id
    }

    constructor ()
      ensures Valid() && workbookCache == map[]
    {
      workbookCache := map[];
      nextId := 0;
    }

    /** `parse_workbook`: the cache is written only once every extraction
        step has succeeded. */
    method ParseWorkbook(filepath: string, file: StoredFile) returns (r: Result<WorkbookData, ParseError>)
      requires Valid()
      modifies this
      ensures Valid()
      ensures r == ParseResult(filepath, file, old(nextId))
      ensures nextId == old(nextId) + 1
      ensures r.Success? ==>
        (r.value.id !in old(workbookCache) && workbookCache == old(workbookCache)[r.value.id := r.value])
      ensures r.Failure? ==> workbookCache == old(workbookCache)
    {
      var workbookId := nextId;
      nextId := nextId + 1;
      var root := ReadRoot(filepath, file);
      if root.Failure? {
        return Failure(root.error);
      }
      var worksheets := ExtractWorksheets(root.value);
      var datasources := ExtractDatasources(root.value);
      var data := WorkbookData(workbookId, Basename(filepath), ExtractWorkbookSummary(root.value),
                               worksheets, datasources);
      workbookCache := workbookCache[workbookId := data];
      r := Success(data);
    }

    /** `get_workbook_data`. */
    function GetWorkbookData(id: nat): (r: Option<WorkbookData>)
      reads this
      requires Valid()
      ensures r.None? <==> id !in workbookCache
      ensures r.Some? ==> r.value.id == id && r.value == workbookCache[id]
    {
      if id in workbookCache then Some(workbookCache[id]) else None
    }
  }
}
