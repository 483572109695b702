/** What `parse_wadl` promises about the list it returns: which base is used,
    in which order endpoints come out, which resource each method is
    attributed to, how many there are, and that a failure leaves nothing. */
module ExtractorProperties {
  import opened Wrappers
  import opened Xml
  import opened Extractor

  /** A method element together with the resource it is read from. */
  datatype Site = Site(resource: Element, methodElement: Element)

  /** Total number of direct method children over `resources`. */
  function MethodCount(resources: seq<Element>): nat
  {
    if resources == [] then 0
    else MethodCount(resources[..|resources| - 1]) + |Methods(resources[|resources| - 1])|
  }

  /** Reference enumeration of the (resource, method) pairs the two loops
      visit: resource by resource, and within a resource its direct `method`
      children in child order. */
  function Sites(resources: seq<Element>): (r: seq<Site>)
    ensures |r| == MethodCount(resources)
    ensures forall k :: 0 <= k < |r| ==>
      && r[k].resource in resources
      && r[k].methodElement in r[k].resource.children
      && Named(r[k].methodElement, WadlNs, "method")
  {
    if resources == [] then []
    else
      var last := resources[|resources| - 1];
      var ms := Methods(last);
      MatchingIsFilter(last.children, WadlNs, "method");
      Sites(resources[..|resources| - 1]) + seq(|ms|, j requires 0 <= j < |ms| => Site(last, ms[j]))
  }

  /** The enumeration keeps resource order: the sites of earlier resources
      all come before those of later ones. */
  lemma {:induction false} SitesAppend(a: seq<Element>, b: seq<Element>)
    ensures Sites(a + b) == Sites(a) + Sites(b)
  {
    if b == [] {
      assert a + b == a;
    } else {
      var init := b[..|b| - 1];
      assert (a + b)[..|a + b| - 1] == a + init;
      assert (a + b)[|a + b| - 1] == b[|b| - 1];
      SitesAppend(a, init);
    }
  }

  /** Within one resource the sites follow its direct `method` children in
      child order. */
  lemma SitesOfOne(resource: Element)
    ensures |Sites([resource])| == |Methods(resource)|
    ensures forall j :: 0 <= j < |Methods(resource)| ==> Sites([resource])[j] == Site(resource, Methods(resource)[j])
  {
    assert [resource][..0] == [];
  }

  /** The fold produces one endpoint per site, in site order: the method's
      `name` verbatim and the full path of the site's own resource. */
  lemma {:induction false} CollectFollowsSites(resources: seq<Element>, base: Option<string>)
    requires Collect(resources, base).Ok?
    ensures var eps := Collect(resources, base).value; var sites := Sites(resources);
      && |eps| == |sites|
      && forall k :: 0 <= k < |eps| ==>
        eps[k].verb == Get(sites[k].methodElement, "name") && FullPath(base, Get(sites[k].resource, "path")) == Ok(eps[k].path)
  {
    if resources != [] {
      var init := resources[..|resources| - 1];
      CollectFollowsSites(init, base);
    }
  }

  /** The fold raises exactly when the base is truthy and some resource that
      has a method child lacks a `path` attribute. */
  lemma {:induction false} CollectRaisesIff(resources: seq<Element>, base: Option<string>)
    ensures Collect(resources, base).Raised? <==>
      Truthy(base) && exists r :: r in resources && Get(r, "path").None? && Methods(r) != []
  {
    if resources != [] {
      var init := resources[..|resources| - 1];
      CollectRaisesIff(init, base);
      assert forall r :: r in resources <==> r in init || r == resources[|resources| - 1];
    }
  }

  /** Base selection: with no `resources` descendant the base is `""`;
      otherwise it is the `base` attribute (possibly `None`) of the first
      `resources` descendant in document order. */
  lemma BaseIsFirstResources(root: Element)
    ensures (forall d :: d in Descendants(root) ==> !Named(d, WadlNs, "resources")) ==> BaseUrl(root) == Some("")
    ensures (exists d :: d in Descendants(root) && Named(d, WadlNs, "resources")) ==>
      exists i :: IsFirstMatch(Descendants(root), i, WadlNs, "resources") && BaseUrl(root) == Get(Descendants(root)[i], "base")
  {
    FindIsFirstInDocumentOrder(root, WadlNs, "resources");
  }

  /** Ordering, count and attribution: on success the k-th endpoint comes from
      the k-th (resource, method) site in document order, the method is a
      direct child of that resource, the verb is its `name` (kept when
      `None`), and methods of one resource share one full path. */
  lemma EndpointsFollowDocumentOrder(root: Element)
    requires Walk(Parsed(root)).Ok?
    ensures var eps := Extract(Parsed(root)); var sites := Sites(FindAll(root, WadlNs, "resource"));
      && |eps| == |sites| == MethodCount(FindAll(root, WadlNs, "resource"))
      && (forall k :: 0 <= k < |eps| ==>
        && sites[k].resource in Descendants(root)
        && sites[k].methodElement in sites[k].resource.children
        && eps[k].verb == Get(sites[k].methodElement, "name")
        && FullPath(BaseUrl(root), Get(sites[k].resource, "path")) == Ok(eps[k].path))
      && (forall k, l :: 0 <= k < |eps| && 0 <= l < |eps| && sites[k].resource == sites[l].resource ==>
        eps[k].path == eps[l].path)
  {
    MatchingIsFilter(Descendants(root), WadlNs, "resource");
    CollectFollowsSites(FindAll(root, WadlNs, "resource"), BaseUrl(root));
  }

  /** All or nothing: the walk raises exactly when the base is truthy and a
      resource with methods has no `path`; then `parse_wadl` returns `[]`,
      dropping the endpoints gathered before, and prints one error line. */
  lemma NoPartialResults(doc: Document)
    ensures Walk(doc).Raised? <==>
      doc.Malformed? ||
      (Truthy(BaseUrl(doc.root)) &&
       exists r :: r in FindAll(doc.root, WadlNs, "resource") && Get(r, "path").None? && Methods(r) != [])
    ensures Walk(doc).Raised? ==> Extract(doc) == [] && |ErrorLog(doc)| == 1
    ensures Walk(doc).Ok? ==> ErrorLog(doc) == []
  {
    if doc.Parsed? {
      CollectRaisesIff(FindAll(doc.root, WadlNs, "resource"), BaseUrl(doc.root));
    }
  }

  /** With a falsy base nothing can raise, and every full path is the
      resource's raw `path` attribute, unchanged (possibly `None`). */
  lemma FalsyBaseKeepsRawPaths(root: Element)
    requires !Truthy(BaseUrl(root))
    ensures Walk(Parsed(root)).Ok?
    ensures var eps := Extract(Parsed(root)); var sites := Sites(FindAll(root, WadlNs, "resource"));
      |eps| == |sites| && forall k :: 0 <= k < |eps| ==> eps[k].path == Get(sites[k].resource, "path")
  {
    var resources := FindAll(root, WadlNs, "resource");
    CollectRaisesIff(resources, BaseUrl(root));
    CollectFollowsSites(resources, BaseUrl(root));
  }

  /** Namespace filtering: a tree with no element in the WADL 2009/02
      namespace yields the empty list, and not as an error. */
  lemma ForeignNamespaceYieldsNothing(root: Element)
    requires forall d :: d in Descendants(root) ==> d.ns != WadlNs
    ensures Walk(Parsed(root)) == Ok([])
    ensures Extract(Parsed(root)) == [] && ErrorLog(Parsed(root)) == []
  {
    MatchingNone(Descendants(root), WadlNs, "resource");
  }
}
