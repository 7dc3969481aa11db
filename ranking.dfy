/** Ranking of suggestions: the stable sort by descending confidence that
    `generate_suggestions` applies to the collected list.  The original calls
    the library's stable sort with the confidence as key and `reverse=True`;
    it is modelled here by an insertion sort with the same result. */
module Ranking {
  import opened Suggestions

  /** Confidences never increase along the list. */
  predicate NonIncreasing(s: seq<VizSuggestion>)
  {
    forall i, j :: 0 <= i < j < |s| ==> s[i].confidence >= s[j].confidence
  }

  /** Places `x` after every element of `s` whose confidence is at least
      that of `x`, so that it follows its equals. */
  function Insert(x: VizSuggestion, s: seq<VizSuggestion>): seq<VizSuggestion>
  {
    if s == [] then [x]
    else if s[0].confidence >= x.confidence then [s[0]] + Insert(x, s[1..])
    else [x] + s
  }

  /** The sorted list: each element in turn is placed after its equals. */
  function SortByConfidence(xs: seq<VizSuggestion>): seq<VizSuggestion>
  {
    if xs == [] then [] else Insert(xs[|xs| - 1], SortByConfidence(xs[..|xs| - 1]))
  }

  /** The elements of `s` with confidence `c`, in their order. */
  function WithConfidence(s: seq<VizSuggestion>, c: nat): seq<VizSuggestion>
  {
    if s == [] then []
    else (if s[0].confidence == c then [s[0]] else []) + WithConfidence(s[1..], c)
  }

  /** The selection holds exactly the elements of confidence `c`. */
  lemma {:induction false} WithConfidenceMembers(s: seq<VizSuggestion>, c: nat, x: VizSuggestion)
    ensures x in WithConfidence(s, c) <==> x in s && x.confidence == c
  {
    if s != [] {
      WithConfidenceMembers(s[1..], c, x);
      assert s == [s[0]] + s[1..];
    }
  }

  lemma {:induction false} WithConfidenceAppend(a: seq<VizSuggestion>, b: seq<VizSuggestion>, c: nat)
    ensures WithConfidence(a + b, c) == WithConfidence(a, c) + WithConfidence(b, c)
  {
    if a != [] {
      WithConfidenceAppend(a[1..], b, c);
      var head := if a[0].confidence == c then [a[0]] else [];
      assert (a + b)[0] == a[0] && (a + b)[1..] == a[1..] + b;
      assert WithConfidence(a + b, c) == head + WithConfidence(a[1..] + b, c);
      assert WithConfidence(a, c) == head + WithConfidence(a[1..], c);
    } else {
      assert a + b == b;
    }
  }

  /** Inserting adds exactly `x`. */
  lemma {:induction false} InsertPermutes(x: VizSuggestion, s: seq<VizSuggestion>)
    ensures multiset(Insert(x, s)) == multiset(s) + multiset{x}
  {
    if s != [] && s[0].confidence >= x.confidence {
      InsertPermutes(x, s[1..]);
      assert s == [s[0]] + s[1..];
    }
  }

  /** Inserting into a sorted list keeps it sorted. */
  lemma {:induction false} InsertSorted(x: VizSuggestion, s: seq<VizSuggestion>)
    requires NonIncreasing(s)
    ensures NonIncreasing(Insert(x, s))
  {
    if s != [] && s[0].confidence >= x.confidence {
      InsertSorted(x, s[1..]);
      InsertPermutes(x, s[1..]);
      var r := Insert(x, s[1..]);
      forall j | 0 <= j < |r|
        ensures s[0].confidence >= r[j].confidence
      {
        assert r[j] in multiset(r);
        if r[j] != x {
          assert r[j] in s[1..];
        }
      }
    }
  }

  /** Inserting `x` puts it after the elements of equal confidence already
      present. */
  lemma {:induction false} InsertStable(x: VizSuggestion, s: seq<VizSuggestion>, c: nat)
    requires NonIncreasing(s)
    ensures WithConfidence(Insert(x, s), c) ==
      WithConfidence(s, c) + (if x.confidence == c then [x] else [])
  {
    if s == [] {
    } else if s[0].confidence >= x.confidence {
      InsertStable(x, s[1..], c);
    } else {
      if x.confidence == c {
        NoneWithConfidence(s, c);
      }
    }
  }

  /** A sorted list whose head is below `c` holds nothing of confidence `c`. */
  lemma {:induction false} NoneWithConfidence(s: seq<VizSuggestion>, c: nat)
    requires NonIncreasing(s)
    requires s != [] && s[0].confidence < c
    ensures WithConfidence(s, c) == []
  {
    if |s| > 1 {
      NoneWithConfidence(s[1..], c);
    }
  }

  /** Selecting from a list extended by one element. */
  lemma WithConfidenceSnoc(s: seq<VizSuggestion>, x: VizSuggestion, c: nat)
    ensures WithConfidence(s + [x], c) == WithConfidence(s, c) + (if x.confidence == c then [x] else [])
  {
    WithConfidenceAppend(s, [x], c);
    assert [x][1..] == [];
  }

  /** The sorted list is ordered by non-increasing confidence and is a
      permutation of its input. */
  lemma {:induction false} SortSortedPermutes(xs: seq<VizSuggestion>)
    ensures NonIncreasing(SortByConfidence(xs))
    ensures multiset(SortByConfidence(xs)) == multiset(xs)
    ensures |SortByConfidence(xs)| == |xs|
  {
    if xs != [] {
      var prefix, x := xs[..|xs| - 1], xs[|xs| - 1];
      var sorted := SortByConfidence(prefix);
      assert SortByConfidence(xs) == Insert(x, sorted);
      SortSortedPermutes(prefix);
      assert NonIncreasing(Insert(x, sorted)) by {
        InsertSorted(x, sorted);
      }
      assert multiset(Insert(x, sorted)) == multiset(xs) by {
        InsertPermutes(x, sorted);
        assert xs == prefix + [x];
      }
      assert |Insert(x, sorted)| == |multiset(xs)|;
    }
  }

  /** Stability: the elements of any one confidence appear in the sorted list
      in the order they had in the input. */
  lemma {:induction false} SortStable(xs: seq<VizSuggestion>, c: nat)
    ensures WithConfidence(SortByConfidence(xs), c) == WithConfidence(xs, c)
  {
    if xs != [] {
      var prefix, x := xs[..|xs| - 1], xs[|xs| - 1];
      var sorted := SortByConfidence(prefix);
      var tail := if x.confidence == c then [x] else [];
      assert WithConfidence(Insert(x, sorted), c) == WithConfidence(sorted, c) + tail by {
        SortSortedPermutes(prefix);
        InsertStable(x, sorted, c);
      }
      assert WithConfidence(sorted, c) == WithConfidence(prefix, c) by {
        SortStable(prefix, c);
      }
      assert WithConfidence(xs, c) == WithConfidence(prefix, c) + tail by {
        assert xs == prefix + [x];
        WithConfidenceSnoc(prefix, x, c);
      }
    }
  }


}
