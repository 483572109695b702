/** The element tree that `xml.etree.ElementTree` hands to the extractor, and the
    two kinds of search the extractor asks of it: `iterfind(".//ns:tag")`
    (every descendant in document order) and `findall("ns:tag")` (direct
    children only). Lexing and parsing the file are not modelled: a
    `Document` is the outcome of `ET.parse`, a tree or the parser's error. */
module Xml {
  import opened Wrappers

  /** One element: namespace URI ("" when the element is in no namespace),
      local name, attributes (keyed by their plain name) and child elements
      in document order. */
  datatype Element = Element(ns: string, tag: string, attrs: map<string, string>, children: seq<Element>)

  /** What `ET.parse(file_path).getroot()` yields: the root element, or the
      message of the exception it raised. */
  datatype Document = Parsed(root: Element) | Malformed(message: string)

  /** `element.get(key)`: the attribute's value, or `None` when it is absent. */
  function Get(e: Element, key: string): Option<string>
  {
    if key in e.attrs then Some(e.attrs[key]) else None
  }

  /** The element's tag is `{ns}tag`. */
  predicate Named(e: Element, ns: string, tag: string)
  {
    e.ns == ns && e.tag == tag
  }

  /** Number of elements in the subtree rooted at `e`, `e` included. */
  function Size(e: Element): nat
    decreases e
  {
    1 + ForestSize(e.children)
  }

  function ForestSize(cs: seq<Element>): nat
    decreases cs
  {
    if cs == [] then 0 else Size(cs[0]) + ForestSize(cs[1..])
  }

  /** Every element strictly below `e`, in pre-order (document order), as
      `Element.iter()` yields them with `e` itself left out. */
  function Descendants(e: Element): seq<Element>
    decreases e
  {
    Forest(e.children)
  }

  /** Pre-order walk of a sequence of sibling subtrees. */
  function Forest(cs: seq<Element>): seq<Element>
    decreases cs
  {
    if cs == [] then [] else [cs[0]] + Descendants(cs[0]) + Forest(cs[1..])
  }

  /** The walk visits every element of the subtree but its root exactly once
      by count, and only elements smaller than the root; so the element a
      search starts from is never among its own descendants. */
  lemma {:induction false} DescendantsAreSmaller(e: Element)
    decreases e
    ensures |Descendants(e)| == Size(e) - 1
    ensures forall d :: d in Descendants(e) ==> Size(d) < Size(e)
  {
    ForestIsSmaller(e.children);
  }

  lemma {:induction false} ForestIsSmaller(cs: seq<Element>)
    decreases cs
    ensures |Forest(cs)| == ForestSize(cs)
    ensures forall d :: d in Forest(cs) ==> Size(d) <= ForestSize(cs)
  {
    if cs != [] {
      DescendantsAreSmaller(cs[0]);
      ForestIsSmaller(cs[1..]);
    }
  }

  /** The elements of `es` named `{ns}tag`, in their order. */
  function Matching(es: seq<Element>, ns: string, tag: string): seq<Element>
  {
    if es == [] then []
    else if Named(es[0], ns, tag) then [es[0]] + Matching(es[1..], ns, tag)
    else Matching(es[1..], ns, tag)
  }

  /** Filtering keeps exactly the elements named `{ns}tag`, never more than it
      was given. */
  lemma {:induction false} MatchingIsFilter(es: seq<Element>, ns: string, tag: string)
    ensures |Matching(es, ns, tag)| <= |es|
    ensures forall x :: x in Matching(es, ns, tag) <==> x in es && Named(x, ns, tag)
  {
    if es != [] {
      MatchingIsFilter(es[1..], ns, tag);
      assert forall x :: x in es <==> x == es[0] || x in es[1..];
    }
  }

  /** Filtering keeps nothing when nothing matches. */
  lemma {:induction false} MatchingNone(es: seq<Element>, ns: string, tag: string)
    requires forall x :: x in es ==> !Named(x, ns, tag)
    ensures Matching(es, ns, tag) == []
  {
    if es != [] {
      MatchingNone(es[1..], ns, tag);
    }
  }

  /** Filtering keeps the order of its input: filtering a concatenation is
      concatenating the filtered parts. */
  lemma {:induction false} MatchingAppend(a: seq<Element>, b: seq<Element>, ns: string, tag: string)
    ensures Matching(a + b, ns, tag) == Matching(a, ns, tag) + Matching(b, ns, tag)
  {
    if a == [] {
      assert a + b == b;
    } else {
      assert (a + b)[0] == a[0] && (a + b)[1..] == a[1..] + b;
      MatchingAppend(a[1..], b, ns, tag);
    }
  }

  /** `e.findall(".//ns:tag")`: matching descendants, in document order. */
  function FindAll(e: Element, ns: string, tag: string): seq<Element>
  {
    Matching(Descendants(e), ns, tag)
  }

  /** `e.find(".//ns:tag")`: the first matching descendant, or `None`. */
  function Find(e: Element, ns: string, tag: string): Option<Element>
  {
    var all := FindAll(e, ns, tag);
    if all == [] then None else Some(all[0])
  }

  /** `e.findall("ns:tag")`: matching direct children, in document order. */
  function ChildrenNamed(e: Element, ns: string, tag: string): seq<Element>
  {
    Matching(e.children, ns, tag)
  }

  /** `es[i]` is the first element of `es` named `{ns}tag`. */
  predicate IsFirstMatch(es: seq<Element>, i: int, ns: string, tag: string)
  {
    0 <= i < |es| && Named(es[i], ns, tag) && forall j :: 0 <= j < i ==> !Named(es[j], ns, tag)
  }

  /** The head of a filtered sequence is the first match of the unfiltered one. */
  lemma {:induction false} MatchingHead(es: seq<Element>, ns: string, tag: string)
    requires Matching(es, ns, tag) != []
    ensures exists i :: IsFirstMatch(es, i, ns, tag) && es[i] == Matching(es, ns, tag)[0]
  {
    if !Named(es[0], ns, tag) {
      MatchingHead(es[1..], ns, tag);
      var i :| IsFirstMatch(es[1..], i, ns, tag) && es[1..][i] == Matching(es[1..], ns, tag)[0];
      assert IsFirstMatch(es, i + 1, ns, tag);
    } else {
      assert IsFirstMatch(es, 0, ns, tag);
    }
  }

  /** `find` answers with the first matching descendant in document order, and
      with `None` exactly when no descendant matches; the element it starts
      from is never a candidate. */
  lemma FindIsFirstInDocumentOrder(e: Element, ns: string, tag: string)
    ensures Find(e, ns, tag).None? <==> forall d :: d in Descendants(e) ==> !Named(d, ns, tag)
    ensures Find(e, ns, tag).Some? ==>
      exists i :: IsFirstMatch(Descendants(e), i, ns, tag) && Descendants(e)[i] == Find(e, ns, tag).value
    ensures e !in Descendants(e)
  {
    DescendantsAreSmaller(e);
    MatchingIsFilter(Descendants(e), ns, tag);
    if FindAll(e, ns, tag) != [] {
      MatchingHead(Descendants(e), ns, tag);
    }
  }

  /** Every direct child is a descendant. */
  lemma {:induction false} ChildIsDescendant(e: Element, c: Element)
    requires c in e.children
    ensures c in Descendants(e)
  {
    ForestContains(e.children, c);
  }

  lemma {:induction false} ForestContains(cs: seq<Element>, c: Element)
    requires c in cs
    ensures c in Forest(cs)
  {
    if cs[0] != c {
      ForestContains(cs[1..], c);
    }
  }

  /** The walk is in document order: the walk of earlier siblings comes
      whole before the walk of later ones. */
  lemma {:induction false} ForestAppend(a: seq<Element>, b: seq<Element>)
    ensures Forest(a + b) == Forest(a) + Forest(b)
  {
    if a != [] {
      assert (a + b)[0] == a[0] && (a + b)[1..] == a[1..] + b;
      ForestAppend(a[1..], b);
    } else {
      assert a + b == b;
    }
  }
}
