/** `parse_wadl` (wadlDump.py:21-43): flattens a WADL document into an ordered
    list of (method, full path) endpoints, or into the empty list when anything
    raises. */
module Extractor {
  import opened Wrappers
  import opened Xml
  import opened Text

  /** The one namespace whose elements the extractor looks at. */
  const WadlNs := "http://wadl.dev.java.net/2009/02"

  /** `str(e)` for the `AttributeError` of `None.lstrip('/')`. */
  const NoneLstripMessage := "'NoneType' object has no attribute 'lstrip'"

  /** The line printed by the `except` branch of `parse_wadl` precedes this. */
  const ParseErrorPrefix := "Error parsing WADL file: "

  /** One extracted endpoint. Both parts are read with `element.get`, so either
      may be `None`: a `method` without `name`, a `resource` without `path`
      under a falsy base. */
  datatype Endpoint = Endpoint(verb: Option<string>, path: Option<string>)

  /** Python truthiness of the base: `None` and `""` are falsy. */
  predicate Truthy(base: Option<string>)
  {
    base.Some? && base.value != ""
  }

  /** `base_url`: the `base` attribute of the first `resources` descendant, `None`
      when that element has no `base`, and `""` when there is no such element. */
  function BaseUrl(root: Element): Option<string>
  {
    match Find(root, WadlNs, "resources")
    case None => Some("")
    case Some(resources) => Get(resources, "base")
  }

  /** `f"{base.rstrip('/')}/{path.lstrip('/')}"`. */
  function Join(base: string, path: string): string
  {
    RStrip(base, '/') + "/" + LStrip(path, '/')
  }

  /** Exactly one `/` sits at the seam of a join, however many slashes end
      the base or start the path: every base is some `front` not ending in
      `/` followed by slashes (`Text.RStrip`), every path some slashes followed
      by a `back` not starting with `/` (`Text.LStrip`). */
  lemma {:induction false} JoinCollapsesSlashes(front: string, k: nat, m: nat, back: string)
    requires front == [] || front[|front| - 1] != '/'
    requires back == [] || back[0] != '/'
    ensures Join(front + Repeat('/', k), Repeat('/', m) + back) == front + "/" + back
  {
    RStripUnique(front, k, '/');
    LStripUnique(back, m, '/');
  }

  /** The expression `full_path` of one method of a resource whose `path`
      attribute is `path`; `None.lstrip` raises when the base is truthy. */
  function FullPath(base: Option<string>, path: Option<string>): Attempt<Option<string>>
  {
    if Truthy(base) then
      if path.None? then Raised(NoneLstripMessage) else Ok(Some(Join(base.value, path.value)))
    else Ok(path)
  }

  /** `resource.findall("wadl:method")`: the direct method children only. */
  function Methods(resource: Element): seq<Element>
  {
    ChildrenNamed(resource, WadlNs, "method")
  }

  /** The endpoints the inner loop appends for the methods `ms` once the full
      path is `fullPath`. */
  function MethodEndpoints(ms: seq<Element>, fullPath: Option<string>): (r: seq<Endpoint>)
    ensures |r| == |ms|
    ensures forall k :: 0 <= k < |ms| ==> r[k] == Endpoint(Get(ms[k], "name"), fullPath)
  {
    if ms == [] then [] else MethodEndpoints(ms[..|ms| - 1], fullPath) + [Endpoint(Get(ms[|ms| - 1], "name"), fullPath)]
  }

  /** One pass of the inner loop over a resource's methods: nothing for a
      resource without methods; otherwise `full_path` is computed (and may
      raise) and every method gets it. */
  function ResourceEndpoints(resource: Element, base: Option<string>): Attempt<seq<Endpoint>>
  {
    var ms := Methods(resource);
    if ms == [] then Ok([])
    else match FullPath(base, Get(resource, "path"))
      case Raised(m) => Raised(m)
      case Ok(fullPath) => Ok(MethodEndpoints(ms, fullPath))
  }

  /** The outer loop as a left fold over the resources: the first exception
      ends the walk, otherwise each resource's endpoints are appended. */
  function Collect(resources: seq<Element>, base: Option<string>): (r: Attempt<seq<Endpoint>>)
    ensures r.Raised? ==> r.message == NoneLstripMessage
  {
    if resources == [] then Ok([])
    else match Collect(resources[..|resources| - 1], base)
      case Raised(m) => Raised(m)
      case Ok(before) =>
        match ResourceEndpoints(resources[|resources| - 1], base)
        case Raised(m) => Raised(m)
        case Ok(more) => Ok(before + more)
  }

  /** The body of the `try` block of `parse_wadl`. */
  function Walk(doc: Document): Attempt<seq<Endpoint>>
  {
    match doc
    case Malformed(m) => Raised(m)
    case Parsed(root) => Collect(FindAll(root, WadlNs, "resource"), BaseUrl(root))
  }

  /** What `parse_wadl` returns: the walk's list, or `[]` when it raised. */
  function Extract(doc: Document): seq<Endpoint>
  {
    match Walk(doc)
    case Ok(endpoints) => endpoints
    case Raised(_) => []
  }

  /** What `parse_wadl` prints: one error line when the walk raised. */
  function ErrorLog(doc: Document): seq<string>
  {
    match Walk(doc)
    case Ok(_) => []
    case Raised(m) => [ParseErrorPrefix + m]
  }

  /** `parse_wadl` itself: the two nested loops appending to `endpoints`, and
      the `except` branch that drops whatever was gathered so far. */
  method ParseWadl(doc: Document) returns (endpoints: seq<Endpoint>, log: seq<string>)
    ensures Walk(doc).Ok? ==> endpoints == Walk(doc).value && log == []
    ensures Walk(doc).Raised? ==> endpoints == [] && log == [ParseErrorPrefix + Walk(doc).message]
  {
    if doc.Malformed? {
      return [], [ParseErrorPrefix + doc.message];
    }
    var root := doc.root;
    var base := BaseUrl(root);
    var resources := FindAll(root, WadlNs, "resource");
    endpoints := [];
    var i := 0;
    while i < |resources|
      invariant 0 <= i <= |resources|
      invariant Collect(resources[..i], base) == Ok(endpoints)
    {
      var resource := resources[i];
      var path := Get(resource, "path");
      var methods := Methods(resource);
      ghost var before := endpoints;
      var j := 0;
      while j < |methods|
        invariant 0 <= j <= |methods|
        invariant j == 0 ==> endpoints == before
        invariant j > 0 ==> FullPath(base, path).Ok? && endpoints == before + MethodEndpoints(methods[..j], FullPath(base, path).value)
      {
        var methodType := Get(methods[j], "name");
        var fullPath := FullPath(base, path);
        if fullPath.Raised? {
          CollectStep(resources, i, base);
          RaisedPrefix(resources, i + 1, base);
          return [], [ParseErrorPrefix + fullPath.message];
        }
        assert methods[..j + 1][..j] == methods[..j];
        endpoints := endpoints + [Endpoint(methodType, fullPath.value)];
        j := j + 1;
      }
      assert methods[..j] == methods;
      CollectExtend(resources, i, base, before, endpoints);
      i := i + 1;
    }
    assert resources[..i] == resources;
    log := [];
  }

  /** One more turn of the outer loop extends the fold by one resource. */
  lemma CollectStep(resources: seq<Element>, i: nat, base: Option<string>)
    requires i < |resources|
    ensures Collect(resources[..i + 1], base) ==
      match Collect(resources[..i], base)
      case Raised(m) => Raised(m)
      case Ok(before) =>
        match ResourceEndpoints(resources[i], base)
        case Raised(m) => Raised(m)
        case Ok(more) => Ok(before + more)
  {
    assert resources[..i + 1][..i] == resources[..i];
  }

  /** A finished pass of the inner loop over `resources[i]` extends the fold
      by that resource's endpoints. */
  lemma CollectExtend(resources: seq<Element>, i: nat, base: Option<string>, before: seq<Endpoint>, after: seq<Endpoint>)
    requires i < |resources|
    requires Collect(resources[..i], base) == Ok(before)
    requires var ms, path := Methods(resources[i]), Get(resources[i], "path");
      && (ms == [] ==> after == before)
      && (ms != [] ==> FullPath(base, path).Ok? && after == before + MethodEndpoints(ms, FullPath(base, path).value))
    ensures Collect(resources[..i + 1], base) == Ok(after)
  {
    CollectStep(resources, i, base);
    if Methods(resources[i]) == [] {
      assert after == before + [];
    }
  }

  /** Once a prefix of the resources raises, the whole walk raises. */
  lemma {:induction false} RaisedPrefix(resources: seq<Element>, n: nat, base: Option<string>)
    requires n <= |resources|
    requires Collect(resources[..n], base).Raised?
    ensures Collect(resources, base).Raised?
    decreases |resources| - n
  {
    if n == |resources| {
      assert resources[..n] == resources;
    } else {
      var init := resources[..|resources| - 1];
      assert init[..n] == resources[..n];
      RaisedPrefix(init, n, base);
    }
  }
}
