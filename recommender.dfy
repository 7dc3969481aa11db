/** The recommendation engine: runs the rule list over every worksheet of a
    parsed workbook, remembers each suggestion under its identifier, and hands
    back the suggestions ranked by confidence in their dictionary form. */
module Recommender {
  import opened Text
  import opened Workbook
  import opened Suggestions
  import opened Rules
  import opened Ranking

  type Cache = map<nat, VizSuggestion>

  /** The cache after storing each suggestion of `r` under its identifier,
      in order. */
  function Cached(cache: Cache, r: seq<VizSuggestion>): Cache
  {
    if r == [] then cache
    else Cached(cache, r[..|r| - 1])[r[|r| - 1].id := r[|r| - 1]]
  }

  /** Every identifier in the cache is below `bound` and is the identifier of
      the suggestion stored under it. */
  predicate CacheBelow(cache: Cache, bound: nat)
  {
    forall id :: id in cache ==> id < bound && cache[id].id == id
  }

  /** Storing a batch numbered from `first` into a cache whose identifiers
      are all below `first`: each suggestion of the batch is found under its
      identifier, and every earlier entry is kept as it was. */
  lemma {:induction false} CachedBatch(cache: Cache, r: seq<VizSuggestion>, first: nat)
    requires CacheBelow(cache, first) && Numbered(r, first)
    ensures CacheBelow(Cached(cache, r), first + |r|)
    ensures forall i :: 0 <= i < |r| ==> r[i].id in Cached(cache, r) && Cached(cache, r)[r[i].id] == r[i]
    ensures forall id :: id in cache ==> id in Cached(cache, r) && Cached(cache, r)[id] == cache[id]
    ensures forall id :: id in Cached(cache, r) <==> id in cache || first <= id < first + |r|
  {
    if r != [] {
      var prefix := r[..|r| - 1];
      assert Numbered(prefix, first) by {
        forall i | 0 <= i < |prefix| ensures prefix[i].id == first + i {
          assert prefix[i] == r[i];
        }
      }
      CachedBatch(cache, prefix, first);
      forall i | 0 <= i < |r|
        ensures r[i].id in Cached(cache, r) && Cached(cache, r)[r[i].id] == r[i]
      {
        if i < |r| - 1 {
          assert r[i] == prefix[i];
        }
      }
    }
  }

  /** The suggestions for each worksheet in turn, numbered on from `first`
      across the whole workbook. */
  function WorkbookSuggestions(rules: seq<RuleFn>, wss: seq<Worksheet>, n: nat, first: nat): seq<VizSuggestion>
    requires n <= |wss| && Sound(rules)
  {
    if n == 0 then []
    else
      var prev := WorkbookSuggestions(rules, wss, n - 1, first);
      prev + RuleOutputs(rules, |rules|, wss[n - 1], first + |prev|)
  }

  /** The workbook's suggestions are numbered consecutively from `first`. */
  lemma {:induction false} WorkbookSuggestionsNumbered(rules: seq<RuleFn>, wss: seq<Worksheet>, n: nat, first: nat)
    requires n <= |wss| && Sound(rules)
    ensures Numbered(WorkbookSuggestions(rules, wss, n, first), first)
  {
    if n > 0 {
      WorkbookSuggestionsNumbered(rules, wss, n - 1, first);
      var prev := WorkbookSuggestions(rules, wss, n - 1, first);
      var next := RuleOutputs(rules, |rules|, wss[n - 1], first + |prev|);
      var r: seq<VizSuggestion> := prev + next;
      forall i | 0 <= i < |r| ensures r[i].id == first + i {
        if i >= |prev| {
          assert r[i] == next[i - |prev|];
        }
      }
    }
  }

  /** One more worksheet adds its own suggestions, numbered on. */
  lemma WorkbookSuggestionsStep(rules: seq<RuleFn>, wss: seq<Worksheet>, i: nat, first: nat, all: seq<VizSuggestion>)
    requires i < |wss| && Sound(rules) && all == WorkbookSuggestions(rules, wss, i, first)
    ensures WorkbookSuggestions(rules, wss, i + 1, first) == all + RuleOutputs(rules, |rules|, wss[i], first + |all|)
  {
    var n := i + 1;
    assert WorkbookSuggestions(rules, wss, n, first) ==
      WorkbookSuggestions(rules, wss, n - 1, first) + RuleOutputs(rules, |rules|, wss[n - 1], first + |all|);
  }

  /** The loop of `_analyze_worksheet` over the rule list: the rules' output
      in rule order, numbered from `first`. */
  method ApplyRules(rules: seq<RuleFn>, ws: Worksheet, first: nat) returns (r: seq<VizSuggestion>)
    requires Sound(rules)
    ensures r == RuleOutputs(rules, |rules|, ws, first)
  {
    r := [];
    var k := 0;
    while k < |rules|
      invariant 0 <= k <= |rules|
      invariant r == RuleOutputs(rules, k, ws, first)
    {
      r := r + rules[k](ws, first + |r|);
      k := k + 1;
    }
  }

  /** Each suggestion of a workbook names one of its worksheets as its
      origin and carries one of the rules' confidences. */
  lemma {:induction false} WorkbookSuggestionsOrigin(rules: seq<RuleFn>, wss: seq<Worksheet>, n: nat, first: nat)
    requires n <= |wss| && Sound(rules)
    ensures forall s :: s in WorkbookSuggestions(rules, wss, n, first) ==>
      s.confidence in Confidences && exists w :: w in wss && s.originalWorksheet == w.name
  {
    if n > 0 {
      WorkbookSuggestionsOrigin(rules, wss, n - 1, first);
      var prev := WorkbookSuggestions(rules, wss, n - 1, first);
      var next := RuleOutputs(rules, |rules|, wss[n - 1], first + |prev|);
      forall s: VizSuggestion | s in prev + next
        ensures s.confidence in Confidences && exists w :: w in wss && s.originalWorksheet == w.name
      {
        if s !in prev {
          var j :| 0 <= j < |next| && next[j] == s;
          assert s.originalWorksheet == wss[n - 1].name;
        }
      }
    }
  }

  /** The list comprehension that serialises the ranked suggestions. */
  function SerializeAll(s: seq<VizSuggestion>): (r: seq<SerializedSuggestion>)
    ensures |r| == |s|
    ensures forall i :: 0 <= i < |s| ==>
      r[i].id == s[i].id && r[i].confidence == s[i].confidence && Rehydrate(r[i]) == Some(s[i])
  {
    seq(|s|, i requires 0 <= i < |s| => Serialize(s[i]))
  }

  /** What `generate_suggestions` returns for a workbook whose first
      suggestion is numbered `first`. */
  function Ranked(rules: seq<RuleFn>, wss: seq<Worksheet>, first: nat): seq<SerializedSuggestion>
    requires Sound(rules)
  {
    SerializeAll(SortByConfidence(WorkbookSuggestions(rules, wss, |wss|, first)))
  }

  /** The ranked output is sorted by non-increasing confidence, holds each
      suggestion exactly once, and keeps suggestions of equal confidence in
      the order the rules made them. */
  lemma RankedIsSortedPermutation(rules: seq<RuleFn>, wss: seq<Worksheet>, first: nat)
    requires Sound(rules)
    ensures var all := WorkbookSuggestions(rules, wss, |wss|, first);
      var sorted := SortByConfidence(all);
      NonIncreasing(sorted) && multiset(sorted) == multiset(all) &&
      (forall c :: WithConfidence(sorted, c) == WithConfidence(all, c)) &&
      Ranked(rules, wss, first) == SerializeAll(sorted)
    ensures var out := Ranked(rules, wss, first);
      forall i, j :: 0 <= i < j < |out| ==> out[i].confidence >= out[j].confidence
  {
    var all := WorkbookSuggestions(rules, wss, |wss|, first);
    SortSortedPermutes(all);
    forall c ensures WithConfidence(SortByConfidence(all), c) == WithConfidence(all, c) {
      SortStable(all, c);
    }
  }

  /** Every entry of the ranked output can be looked up in the cache the run
      leaves behind, and rebuilding that entry gives the cached suggestion. */
  lemma RankedAreCached(rules: seq<RuleFn>, cache: Cache, wss: seq<Worksheet>, first: nat)
    requires CacheBelow(cache, first) && Sound(rules)
    ensures var out := Ranked(rules, wss, first);
      var after := Cached(cache, WorkbookSuggestions(rules, wss, |wss|, first));
      forall i :: 0 <= i < |out| ==>
        out[i].id in after && Serialize(after[out[i].id]) == out[i] && Rehydrate(out[i]) == Some(after[out[i].id])
  {
    var all := WorkbookSuggestions(rules, wss, |wss|, first);
    var sorted := SortByConfidence(all);
    var after := Cached(cache, all);
    SortSortedPermutes(all);
    WorkbookSuggestionsNumbered(rules, wss, |wss|, first);
    CachedBatch(cache, all, first);
    forall i | 0 <= i < |Ranked(rules, wss, first)|
      ensures Ranked(rules, wss, first)[i].id in after && Serialize(after[Ranked(rules, wss, first)[i].id]) == Ranked(rules, wss, first)[i]
      ensures Rehydrate(Ranked(rules, wss, first)[i]) == Some(after[Ranked(rules, wss, first)[i].id])
    {
      assert sorted[i] in multiset(all);
      var j :| 0 <= j < |all| && all[j] == sorted[i];
      assert Ranked(rules, wss, first)[i] == Serialize(sorted[i]);
      RoundTrip(sorted[i], Ranked(rules, wss, first)[i]);
    }
  }

  class VizRecommender {
    /** `suggestion_cache`: every suggestion made so far, by identifier. */
    var suggestionCache: Cache
    /** Stands for the supply of fresh random identifiers: the next one. */
    var nextId: nat
    /** `rules`: the heuristics applied to each worksheet, in order. */
    const rules: seq<RuleFn>

    ghost predicate Valid()
      reads this
    {
      CacheBelow(suggestionCache, nextId) && Sound(rules)
    }

    constructor()
      ensures Valid()
      ensures suggestionCache == map[] && nextId == 0 && rules == DefaultRules
    {
      rules := DefaultRules;
      suggestionCache := map[];
      DefaultRulesSound();
      nextId := 0;
    }

    /** `get_suggestion`: the cached suggestion, or nothing for an unknown
        identifier. */
    function GetSuggestion(id: nat): (r: Option<VizSuggestion>)
      reads this
      ensures r.Some? <==> id in suggestionCache
      ensures r.Some? ==> r.value == suggestionCache[id]
    {
      if id in suggestionCache then Some(suggestionCache[id]) else None
    }

    /** `_analyze_worksheet`: applies the nine rules in order, stores what
        they suggest in the cache, and returns it. */
    method AnalyzeWorksheet(ws: Worksheet) returns (r: seq<VizSuggestion>)
      requires Valid()
      modifies this
      ensures Valid()
      ensures r == RuleOutputs(rules, |rules|, ws, old(nextId))
      ensures nextId == old(nextId) + |r|
      ensures suggestionCache == Cached(old(suggestionCache), r)
    {
      var first := nextId;
      r := ApplyRules(rules, ws, first);
      CacheAll(r);
      CachedBatch(old(suggestionCache), r, first);
      nextId := first + |r|;
    }

    /** The loop that stores each suggestion under its identifier. */
    method CacheAll(r: seq<VizSuggestion>)
      modifies this
      ensures suggestionCache == Cached(old(suggestionCache), r)
      ensures nextId == old(nextId)
    {
      var i := 0;
      while i < |r|
        invariant 0 <= i <= |r|
        invariant suggestionCache == Cached(old(suggestionCache), r[..i])
        invariant nextId == old(nextId)
      {
        assert r[..i + 1][..i] == r[..i];
        suggestionCache := suggestionCache[r[i].id := r[i]];
        i := i + 1;
      }
      assert r[..i] == r;
    }

    /** `generate_suggestions`: the suggestions for every worksheet of the
        workbook, ranked by confidence and serialised; each is also left in
        the cache. */
    method GenerateSuggestions(data: WorkbookData) returns (out: seq<SerializedSuggestion>)
      requires Valid()
      modifies this
      ensures Valid()
      ensures out == Ranked(rules, data.worksheets, old(nextId))
      ensures nextId == old(nextId) + |WorkbookSuggestions(rules, data.worksheets, |data.worksheets|, old(nextId))|
      ensures suggestionCache == Cached(old(suggestionCache), WorkbookSuggestions(rules, data.worksheets, |data.worksheets|, old(nextId)))
      ensures forall i :: 0 <= i < |out| ==>
        GetSuggestion(out[i].id).Some? && Serialize(GetSuggestion(out[i].id).value) == out[i]
    {
      var first := nextId;
      var all := AnalyzeAll(data.worksheets);
      out := SerializeAll(SortByConfidence(all));
      RankedAreCached(rules, old(suggestionCache), data.worksheets, first);
    }

    /** The loop of `generate_suggestions` over the worksheets: each one's
        suggestions in turn, numbered on, all of them left in the cache. */
    method AnalyzeAll(wss: seq<Worksheet>) returns (all: seq<VizSuggestion>)
      requires Valid()
      modifies this
      ensures Valid()
      ensures all == WorkbookSuggestions(rules, wss, |wss|, old(nextId))
      ensures nextId == old(nextId) + |all|
      ensures suggestionCache == Cached(old(suggestionCache), all)
    {
      var first := nextId;
      all := [];
      var i := 0;
      while i < |wss|
        invariant 0 <= i <= |wss|
        invariant all == WorkbookSuggestions(rules, wss, i, first)
        invariant nextId == first + |all|
        invariant suggestionCache == Cached(old(suggestionCache), all)
        invariant Valid()
      {
        var batch := AnalyzeWorksheet(wss[i]);
        CachedAppend(old(suggestionCache), all, batch);
        WorkbookSuggestionsStep(rules, wss, i, first, all);
        all := all + batch;
        i := i + 1;
      }
    }
  }

  /** Storing two batches one after the other stores their concatenation. */
  lemma {:induction false} CachedAppend(cache: Cache, a: seq<VizSuggestion>, b: seq<VizSuggestion>)
    ensures Cached(Cached(cache, a), b) == Cached(cache, a + b)
  {
    if b == [] {
      assert a + b == a;
    } else {
      var prefix := b[..|b| - 1];
      CachedAppend(cache, a, prefix);
      assert (a + b)[..|a + b| - 1] == a + prefix;
      assert (a + b)[|a + b| - 1] == b[|b| - 1];
    }
  }
}
