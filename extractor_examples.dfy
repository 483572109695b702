/** Concrete documents on which the extractor's behaviour is pinned down. */
module ExtractorExamples {
  import opened Wrappers
  import opened Xml
  import opened Text
  import opened Extractor
  import ExtractorProperties

  function Wadl(tag: string, attrs: map<string, string>, children: seq<Element>): Element
  {
    Element(WadlNs, tag, attrs, children)
  }

  function Verb(name: string): Element
  {
    Wadl("method", map["name" := name], [])
  }

  /** A base ending in one slash and a bare path meet at that slash. */
  lemma JoinTrailingSlashBase()
    ensures Join("http://api.example.com/", "users") == "http://api.example.com/users"
  {
    JoinCollapsesSlashes("http://api.example.com", 1, 0, "users");
    assert Repeat('/', 1) == "/" && Repeat('/', 0) == "";
    assert "http://api.example.com" + "/" == "http://api.example.com/";
    assert "" + "users" == "users";
    assert "http://api.example.com" + "/" + "users" == "http://api.example.com/users";
  }

  /** A bare base and a path with a leading slash also get exactly one `/`. */
  lemma JoinLeadingSlashPath()
    ensures Join("http://x/v1", "/items/") == "http://x/v1/items/"
  {
    JoinCollapsesSlashes("http://x/v1", 0, 1, "items/");
    assert Repeat('/', 1) == "/" && Repeat('/', 0) == "";
    assert "http://x/v1" + "" == "http://x/v1";
    assert "/" + "items/" == "/items/";
    assert "http://x/v1" + "/" + "items/" == "http://x/v1/items/";
  }

  /** Every trailing and every leading slash goes, not just one. */
  lemma JoinStripsAllSlashes()
    ensures Join("http://x/v1//", "//items") == "http://x/v1/items"
  {
    JoinCollapsesSlashes("http://x/v1", 2, 2, "items");
    assert Repeat('/', 1) == "/";
    assert Repeat('/', 2) == "//";
    assert "http://x/v1" + "//" == "http://x/v1//";
    assert "//" + "items" == "//items";
    assert "http://x/v1" + "/" + "items" == "http://x/v1/items";
  }

  /** `<application><resources ...><resource path="users"><method name="GET"/>`. */
  function UsersDoc(resourcesAttrs: map<string, string>): Element
  {
    Wadl("application", map[], [Wadl("resources", resourcesAttrs, [Wadl("resource", map["path" := "users"], [Verb("GET")])])])
  }

  lemma UsersDocSearch(resourcesAttrs: map<string, string>)
    ensures FindAll(UsersDoc(resourcesAttrs), WadlNs, "resources") == [Wadl("resources", resourcesAttrs, [Wadl("resource", map["path" := "users"], [Verb("GET")])])]
    ensures FindAll(UsersDoc(resourcesAttrs), WadlNs, "resource") == [Wadl("resource", map["path" := "users"], [Verb("GET")])]
  {
    var get := Verb("GET");
    var users := Wadl("resource", map["path" := "users"], [get]);
    var rs := Wadl("resources", resourcesAttrs, [users]);
    var app := UsersDoc(resourcesAttrs);
    assert Descendants(get) == [];
    assert Descendants(users) == [get];
    assert Descendants(rs) == [users, get];
    assert Descendants(app) == [rs, users, get];
    assert [rs, users, get][1..] == [users, get] && [users, get][1..] == [get] && [get][1..] == [];
    assert Matching([get], WadlNs, "resources") == [];
    assert Matching([users, get], WadlNs, "resources") == [];
    assert Matching([get], WadlNs, "resource") == [];
    assert Matching([users, get], WadlNs, "resource") == [users];
  }

  /** A `resources` element with base `"http://api.example.com/"` holding one
      resource `users` with a GET method gives exactly one endpoint. */
  lemma SingleResourceWithBase()
    ensures Walk(Parsed(UsersDoc(map["base" := "http://api.example.com/"])))
      == Ok([Endpoint(Some("GET"), Some("http://api.example.com/users"))])
  {
    var attrs := map["base" := "http://api.example.com/"];
    UsersDocResources(attrs, Some("http://api.example.com/"));
    assert BaseUrl(UsersDoc(attrs)) == Some("http://api.example.com/");
    JoinTrailingSlashBase();
    assert FullPath(Some("http://api.example.com/"), Some("users")) == Ok(Some("http://api.example.com/users"));
  }

  /** The same document without a `base` attribute keeps the path as written. */
  lemma SingleResourceWithoutBase()
    ensures Walk(Parsed(UsersDoc(map[]))) == Ok([Endpoint(Some("GET"), Some("users"))])
  {
    UsersDocResources(map[], None);
    assert BaseUrl(UsersDoc(map[])) == None;
  }

  lemma UsersDocResources(attrs: map<string, string>, base: Option<string>)
    ensures Collect(FindAll(UsersDoc(attrs), WadlNs, "resource"), base) ==
      (match FullPath(base, Some("users"))
       case Raised(m) => Raised(m)
       case Ok(p) => Ok([Endpoint(Some("GET"), p)]))
  {
    var users := Wadl("resource", map["path" := "users"], [Verb("GET")]);
    UsersDocSearch(attrs);
    SingleMethodResource(map["path" := "users"], "GET", base);
    assert [users][..0] == [];
  }

  /** A resource whose only child is one method: one endpoint, or the raise. */
  lemma SingleMethodResource(attrs: map<string, string>, verb: string, base: Option<string>)
    ensures ResourceEndpoints(Wadl("resource", attrs, [Verb(verb)]), base) ==
      (match FullPath(base, Get(Wadl("resource", attrs, [Verb(verb)]), "path"))
       case Raised(m) => Raised(m)
       case Ok(p) => Ok([Endpoint(Some(verb), p)]))
  {
    var m := Verb(verb);
    assert [m][1..] == [] && Matching([], WadlNs, "method") == [];
    assert Methods(Wadl("resource", attrs, [m])) == [m];
    assert Get(m, "name") == Some(verb);
    match FullPath(base, Get(Wadl("resource", attrs, [m]), "path"))
    case Raised(_) =>
    case Ok(p) =>
      var eps := MethodEndpoints([m], p);
      assert eps == [eps[0]];
  }

  /** A path that `lstrip('/')` leaves as it is. */
  predicate Bare(p: string)
  {
    p == [] || p[0] != '/'
  }

  /** The resource `path`, holding only the method `verb`. */
  function Leaf(path: string, verb: string): Element
  {
    Wadl("resource", map["path" := path], [Verb(verb)])
  }

  /** The resource `a` with a GET method followed by the nested resource `b`. */
  function Outer(a: string, b: string): Element
  {
    Wadl("resource", map["path" := a], [Verb("GET"), Leaf(b, "POST")])
  }

  /** `<resource path=a><method name="GET"/><resource path=b><method name="POST"/>`
      under base `"http://api/"`. */
  function NestedDoc(a: string, b: string): Element
  {
    Wadl("application", map[], [Wadl("resources", map["base" := "http://api/"], [Outer(a, b)])])
  }

  lemma NestedDocDescendants(a: string, b: string)
    ensures Descendants(NestedDoc(a, b)) ==
      [Wadl("resources", map["base" := "http://api/"], [Outer(a, b)]), Outer(a, b), Verb("GET"), Leaf(b, "POST"), Verb("POST")]
  {
    var get, post, inner, outer := Verb("GET"), Verb("POST"), Leaf(b, "POST"), Outer(a, b);
    var rs := Wadl("resources", map["base" := "http://api/"], [outer]);
    assert Descendants(get) == [] && Descendants(post) == [];
    assert [post][1..] == [] && [get, inner][1..] == [inner] && [inner][1..] == [];
    assert Forest([post]) == [post];
    assert Descendants(inner) == [post];
    assert Forest([inner]) == [inner, post];
    assert Forest([get, inner]) == [get] + [] + [inner, post];
    assert Descendants(outer) == [get, inner, post];
    assert [outer][1..] == [] && [rs][1..] == [];
    assert Descendants(rs) == [outer, get, inner, post];
    assert Forest([rs]) == [rs] + [outer, get, inner, post] + [];
  }

  lemma NestedDocBase(a: string, b: string)
    ensures BaseUrl(NestedDoc(a, b)) == Some("http://api/")
  {
    var get, post, inner, outer := Verb("GET"), Verb("POST"), Leaf(b, "POST"), Outer(a, b);
    var rs := Wadl("resources", map["base" := "http://api/"], [outer]);
    NestedDocDescendants(a, b);
    var all := [rs, outer, get, inner, post];
    assert all[1..] == [outer, get, inner, post] && all[2..] == [get, inner, post];
    assert all[3..] == [inner, post] && all[4..] == [post] && all[5..] == [];
    assert Matching(all[5..], WadlNs, "resources") == [];
    assert Matching(all[4..], WadlNs, "resources") == [];
    assert Matching(all[3..], WadlNs, "resources") == [];
    assert Matching(all[2..], WadlNs, "resources") == [];
    assert Matching(all[1..], WadlNs, "resources") == [];
    assert Matching(all, WadlNs, "resources") == [rs];
  }

  lemma NestedDocResources(a: string, b: string)
    ensures FindAll(NestedDoc(a, b), WadlNs, "resource") == [Outer(a, b), Leaf(b, "POST")]
  {
    var get, post, inner, outer := Verb("GET"), Verb("POST"), Leaf(b, "POST"), Outer(a, b);
    var rs := Wadl("resources", map["base" := "http://api/"], [outer]);
    NestedDocDescendants(a, b);
    var all := [rs, outer, get, inner, post];
    assert all[1..] == [outer, get, inner, post] && all[2..] == [get, inner, post];
    assert all[3..] == [inner, post] && all[4..] == [post] && all[5..] == [];
    assert Matching(all[5..], WadlNs, "resource") == [];
    assert Matching(all[4..], WadlNs, "resource") == [];
    assert Matching(all[3..], WadlNs, "resource") == [inner];
    assert Matching(all[2..], WadlNs, "resource") == [inner];
    assert Matching(all[1..], WadlNs, "resource") == [outer, inner];
    assert Matching(all, WadlNs, "resource") == [outer, inner];
  }

  /** Joining under base `"http://api/"` a path without leading slash. */
  lemma JoinApi(p: string)
    requires Bare(p)
    ensures FullPath(Some("http://api/"), Some(p)) == Ok(Some("http://api/" + p))
  {
    JoinCollapsesSlashes("http://api", 1, 0, p);
    assert Repeat('/', 1) == "/" && Repeat('/', 0) == "";
    assert "http://api" + "/" == "http://api/";
    assert "" + p == p;
  }

  /** A resource whose only child is one method: one endpoint. */
  lemma LeafEndpoints(path: string, verb: string)
    requires Bare(path)
    ensures ResourceEndpoints(Leaf(path, verb), Some("http://api/")) == Ok([Endpoint(Some(verb), Some("http://api/" + path))])
  {
    var m := Verb(verb);
    assert [m][1..] == [] && Matching([], WadlNs, "method") == [];
    assert Methods(Leaf(path, verb)) == [m];
    assert Get(m, "name") == Some(verb);
    assert Get(Leaf(path, verb), "path") == Some(path);
    JoinApi(path);
    var eps := MethodEndpoints([m], Some("http://api/" + path));
    assert eps == [eps[0]];
  }

  /** The outer resource contributes only its own GET: the POST of the nested
      resource is not one of its direct children. */
  lemma OuterEndpoints(a: string, b: string)
    requires Bare(a)
    ensures ResourceEndpoints(Outer(a, b), Some("http://api/")) == Ok([Endpoint(Some("GET"), Some("http://api/" + a))])
  {
    var get, inner := Verb("GET"), Leaf(b, "POST");
    assert [get, inner][1..] == [inner] && [inner][1..] == [];
    assert Matching([inner], WadlNs, "method") == [];
    assert Methods(Outer(a, b)) == [get];
    assert Get(get, "name") == Some("GET");
    assert Get(Outer(a, b), "path") == Some(a);
    JoinApi(a);
    var eps := MethodEndpoints([get], Some("http://api/" + a));
    assert eps == [eps[0]];
  }

  /** The fold over two resources. */
  lemma CollectPair(first: Element, second: Element, base: Option<string>, x: seq<Endpoint>, y: seq<Endpoint>)
    requires ResourceEndpoints(first, base) == Ok(x)
    requires ResourceEndpoints(second, base) == Ok(y)
    ensures Collect([first, second], base) == Ok(x + y)
  {
    assert [first, second][..1] == [first] && [first][..0] == [];
    assert Collect([first], base) == Ok([] + x);
    assert [] + x == x;
  }

  lemma NestedDocWalk(a: string, b: string)
    ensures Walk(Parsed(NestedDoc(a, b))) == Collect([Outer(a, b), Leaf(b, "POST")], Some("http://api/"))
  {
    assert Walk(Parsed(NestedDoc(a, b))) == Collect(FindAll(NestedDoc(a, b), WadlNs, "resource"), BaseUrl(NestedDoc(a, b)));
    NestedDocBase(a, b);
    NestedDocResources(a, b);
  }

  lemma NestedDocCollect(a: string, b: string)
    requires Bare(a) && Bare(b)
    ensures Collect([Outer(a, b), Leaf(b, "POST")], Some("http://api/")) ==
      Ok([Endpoint(Some("GET"), Some("http://api/" + a)), Endpoint(Some("POST"), Some("http://api/" + b))])
  {
    var get := Endpoint(Some("GET"), Some("http://api/" + a));
    var post := Endpoint(Some("POST"), Some("http://api/" + b));
    OuterEndpoints(a, b);
    LeafEndpoints(b, "POST");
    CollectPair(Outer(a, b), Leaf(b, "POST"), Some("http://api/"), [get], [post]);
    assert [get] + [post] == [get, post];
  }

  /** Attribution asymmetry: the POST under the nested resource is attributed
      to `b` only, and the outer resource `a` keeps just its own GET. */
  lemma NestedResourceAttribution(a: string, b: string)
    requires Bare(a) && Bare(b)
    ensures Walk(Parsed(NestedDoc(a, b))) ==
      Ok([Endpoint(Some("GET"), Some("http://api/" + a)), Endpoint(Some("POST"), Some("http://api/" + b))])
  {
    NestedDocWalk(a, b);
    NestedDocCollect(a, b);
  }

  /** The resource `a` with a GET method, then a resource with a POST method
      and no `path`, under base `"http://api/"`. */
  function PathlessDoc(a: string): Element
  {
    Wadl("application", map[], [Wadl("resources", map["base" := "http://api/"],
      [Leaf(a, "GET"), Wadl("resource", map[], [Verb("POST")])])])
  }

  lemma PathlessDocDescendants(a: string)
    ensures var first, pathless := Leaf(a, "GET"), Wadl("resource", map[], [Verb("POST")]);
      Descendants(PathlessDoc(a)) ==
        [Wadl("resources", map["base" := "http://api/"], [first, pathless]), first, Verb("GET"), pathless, Verb("POST")]
  {
    var get, post := Verb("GET"), Verb("POST");
    var first := Leaf(a, "GET");
    var pathless := Wadl("resource", map[], [post]);
    var rs := Wadl("resources", map["base" := "http://api/"], [first, pathless]);
    assert Descendants(get) == [] && Descendants(post) == [];
    assert [get][1..] == [] && [post][1..] == [] && [first, pathless][1..] == [pathless] && [pathless][1..] == [];
    assert Forest([get]) == [get] && Forest([post]) == [post];
    assert Descendants(first) == [get] && Descendants(pathless) == [post];
    assert Forest([pathless]) == [pathless, post];
    assert Forest([first, pathless]) == [first] + [get] + [pathless, post];
    assert Descendants(rs) == [first, get, pathless, post];
    assert [rs][1..] == [];
    assert Forest([rs]) == [rs] + [first, get, pathless, post] + [];
  }

  lemma PathlessDocSearch(a: string)
    ensures BaseUrl(PathlessDoc(a)) == Some("http://api/")
    ensures Wadl("resource", map[], [Verb("POST")]) in FindAll(PathlessDoc(a), WadlNs, "resource")
  {
    var get, post := Verb("GET"), Verb("POST");
    var first := Leaf(a, "GET");
    var pathless := Wadl("resource", map[], [post]);
    var rs := Wadl("resources", map["base" := "http://api/"], [first, pathless]);
    PathlessDocDescendants(a);
    var all := [rs, first, get, pathless, post];
    assert all[1..] == [first, get, pathless, post] && all[2..] == [get, pathless, post];
    assert all[3..] == [pathless, post] && all[4..] == [post] && all[5..] == [];
    assert Matching(all[5..], WadlNs, "resources") == [];
    assert Matching(all[4..], WadlNs, "resources") == [];
    assert Matching(all[3..], WadlNs, "resources") == [];
    assert Matching(all[2..], WadlNs, "resources") == [];
    assert Matching(all[1..], WadlNs, "resources") == [];
    MatchingIsFilter(all, WadlNs, "resource");
  }

  /** The pathless resource under a truthy base makes the walk raise the
      `AttributeError` of `None.lstrip`. */
  lemma PathlessDocRaises(a: string)
    ensures Walk(Parsed(PathlessDoc(a))) == Raised(NoneLstripMessage)
  {
    var root := PathlessDoc(a);
    var post := Verb("POST");
    var pathless := Wadl("resource", map[], [post]);
    PathlessDocSearch(a);
    assert [post][1..] == [];
    assert Methods(pathless) == [post];
    assert Get(pathless, "path").None?;
    ExtractorProperties.CollectRaisesIff(FindAll(root, WadlNs, "resource"), BaseUrl(root));
  }

  /** No partial results: although the first resource on its own yields an
      endpoint, the pathless second one makes `None.lstrip` raise and the
      whole result is `[]`. */
  lemma PathlessResourceDropsEverything(a: string)
    requires Bare(a)
    ensures ResourceEndpoints(Leaf(a, "GET"), Some("http://api/")) == Ok([Endpoint(Some("GET"), Some("http://api/" + a))])
    ensures Extract(Parsed(PathlessDoc(a))) == []
    ensures ErrorLog(Parsed(PathlessDoc(a))) == [ParseErrorPrefix + NoneLstripMessage]
  {
    LeafEndpoints(a, "GET");
    PathlessDocRaises(a);
  }
}
