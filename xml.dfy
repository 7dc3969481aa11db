/** The parsed XML tree and the ElementTree path queries the workbook parser
    uses on it.  Parsing XML text into the tree is done by the library and is
    not part of this model: the tree is the input. */
module Xml {
  import opened Text

  datatype Element = Element(tag: string, attrs: map<string, string>, children: seq<Element>)

  /** `elem.get(key, default)`. */
  function Get(e: Element, key: string, default: string): string
  {
    if key in e.attrs then e.attrs[key] else default
  }

  /** `elem.iter()` without `elem` itself: every element strictly below `e`,
      in document (pre-)order. */
  function Descendants(e: Element): seq<Element>
    decreases e, 1
  {
    DescendantsOf(e.children)
  }

  /** Each element of `cs` followed by its own descendants, in order. */
  function DescendantsOf(cs: seq<Element>): seq<Element>
    decreases cs, 0
  {
    if cs == [] then [] else [cs[0]] + Descendants(cs[0]) + DescendantsOf(cs[1..])
  }

  /** Keeps the elements whose tag is `tag`, in their order. */
  function WithTag(es: seq<Element>, tag: string): (r: seq<Element>)
    ensures |r| <= |es|
    ensures forall x :: x in r <==> x in es && x.tag == tag
  {
    if es == [] then []
    else if es[0].tag == tag then [es[0]] + WithTag(es[1..], tag)
    else WithTag(es[1..], tag)
  }

  /** Keeps the elements carrying attribute `key` with value `value`. */
  function WithAttr(es: seq<Element>, key: string, value: string): (r: seq<Element>)
    ensures |r| <= |es|
    ensures forall x :: x in r <==> x in es && key in x.attrs && x.attrs[key] == value
  {
    if es == [] then []
    else if key in es[0].attrs && es[0].attrs[key] == value then [es[0]] + WithAttr(es[1..], key, value)
    else WithAttr(es[1..], key, value)
  }

  /** `e.findall('.//tag')`. */
  function FindAll(e: Element, tag: string): seq<Element>
  {
    WithTag(Descendants(e), tag)
  }

  /** `e.find('.//tag')`: the first element `FindAll` would return. */
  function Find(e: Element, tag: string): (r: Option<Element>)
    ensures r.None? <==> forall x :: x in Descendants(e) ==> x.tag != tag
    ensures r.Some? ==> r.value.tag == tag && r.value in Descendants(e)
    ensures r.Some? ==> exists k :: (0 <= k < |Descendants(e)| && Descendants(e)[k] == r.value &&
      forall j :: 0 <= j < k ==> Descendants(e)[j].tag != tag)
  {
    var all := FindAll(e, tag);
    if all == [] then None
    else
      WithTagFirst(Descendants(e), tag);
      Some(all[0])
  }

  /** The head of `WithTag` is the earliest element carrying the tag. */
  lemma {:induction false} WithTagFirst(es: seq<Element>, tag: string)
    requires WithTag(es, tag) != []
    ensures WithTag(es, tag)[0].tag == tag
    ensures exists k :: (0 <= k < |es| && es[k] == WithTag(es, tag)[0] &&
      forall j :: 0 <= j < k ==> es[j].tag != tag)
  {
    if es[0].tag == tag {
      assert es[0] == WithTag(es, tag)[0];
    } else {
      WithTagFirst(es[1..], tag);
      var k :| 0 <= k < |es[1..]| && es[1..][k] == WithTag(es[1..], tag)[0] &&
        (forall j :: 0 <= j < k ==> es[1..][j].tag != tag);
      assert es[k + 1] == WithTag(es, tag)[0];
      forall j | 0 <= j < k + 1
        ensures es[j].tag != tag
      {
        if j > 0 {
          assert es[j] == es[1..][j - 1];
        }
      }
    }
  }

  // `e.findall('.//*[@key="value"]')`.
  function FindWithAttr(e: Element, key: string, value: string): seq<Element>
  {
    WithAttr(Descendants(e), key, value)
  }

  /** A child, and everything below it, lies below its parent. */
  lemma {:induction false} ChildDescendants(e: Element, i: nat)
    requires i < |e.children|
    ensures e.children[i] in Descendants(e)
    ensures forall x :: x in Descendants(e.children[i]) ==> x in Descendants(e)
  {
    DescendantsOfContains(e.children, i);
  }

  lemma {:induction false} DescendantsOfContains(cs: seq<Element>, i: nat)
    requires i < |cs|
    ensures cs[i] in DescendantsOf(cs)
    ensures forall x :: x in Descendants(cs[i]) ==> x in DescendantsOf(cs)
  {
    if i > 0 {
      DescendantsOfContains(cs[1..], i - 1);
    }
  }
}
