# wadlDump in Dafny

A model of `wadlDump.py`, a command-line tool that reads a WADL document
(Web Application Description Language, namespace
`http://wadl.dev.java.net/2009/02`) and prints one colour-coded line per HTTP
endpoint: the method and the full URL path.

The model covers four parts of the tool:

- **The element tree** (`xml.dfy`, module `Xml`). This is what
  `xml.etree.ElementTree` hands over. An `Element` has a namespace URI, a local
  name, attributes and children in document order. A `Document` is the outcome
  of `ET.parse`: a tree, or the message of the exception it raised. The two
  searches the tool uses are modelled:
  - `FindAll` / `Find` stand for `findall(".//wadl:x")` / `find(".//wadl:x")`.
    They look at every descendant in pre-order and never at the element the
    search starts from.
  - `ChildrenNamed` stands for `findall("wadl:x")`. It looks at direct children
    only.
- **The extractor `parse_wadl`** (`extractor.dfy`, module `Extractor`).
  - `BaseUrl` picks the base.
  - `Join` and `FullPath` model the path expression on line 37.
  - `Collect` is the two nested loops written as a left fold. An
    exception ends the fold.
  - `Walk` is the body of the `try` block. `Extract` and `ErrorLog` give what
    the function returns and prints.
  - The method `ParseWadl` is the function itself: two nested `while` loops
    that append to `endpoints`, and an early return of `[]` in place of the
    `except` branch. It is proved equal to `Walk`.
  - `extractor_properties.dfy` states what the result is. It uses `Sites`, a
    separate enumeration of the (resource, method) pairs. The lemmas cover
    base selection, order, count, attribution, namespace filtering and
    all-or-nothing failure.
  - `extractor_examples.dfy` works through concrete documents.
- **The presenter** (`presenter.dfy`). It models `colored_method`, its colour
  table, and the output loop of `main`, written as a function from the
  endpoint list to the printed lines.
- **`main`** (`cli.dfy`). This is a function from its inputs to the printed
  lines, the path handed to `os.remove`, and whether that call raised. The
  inputs are the source argument, the download result, the temporary
  directory, the parse outcome, and whether the file system makes
  `os.remove` fail. A failing `os.remove` is not caught, so `main` then ends
  before printing any endpoint or the notice.

Python's `None` is `Option.None`. An exception is `Attempt.Raised`, carrying
`str(e)`. Either part of an endpoint can be `None`: a `method` without `name`
keeps `None` as its verb. With a falsy base, a `resource` without `path` keeps
`None` as its path. Such a `None` prints as `None`.

Where the code and a plain-language description of the tool differ, the model
follows the code:

- `rstrip('/')` and `lstrip('/')` remove every trailing or leading slash, not
  just one.
- A resource without a `path` attribute is not joined as an empty string. When
  the base is truthy and the resource has a method, `None.lstrip` raises
  `AttributeError`, and the whole result becomes `[]`. When the base is falsy,
  the path stays `None`.
- A `resources` element without a `base` attribute gives the base `None`, not
  `""`. Both are falsy, so this has the same effect.

## Model

| member | source | states |
|---|---|---|
| `Xml.FindIsFirstInDocumentOrder` | wadlDump.py:28 | `find(".//…")` gives `None` exactly when no descendant matches; otherwise it gives the first matching descendant in pre-order; the start element is never its own descendant |
| `Xml.DescendantsAreSmaller` | wadlDump.py:28 | the descendant walk lists `Size(e) - 1` elements, all strictly smaller than `e` |
| `Xml.MatchingIsFilter` | wadlDump.py:32-35 | a `findall` keeps exactly the elements with the requested namespace and name, and never more than it was given |
| `Xml.MatchingNone` | wadlDump.py:32 | a search over elements none of which matches returns `[]` |
| `Xml.ChildIsDescendant` | wadlDump.py:32 | every direct child is also found by the depth-unbounded search |
| `Xml.MatchingAppend` | wadlDump.py:32-35 | a `findall` keeps the order of what it searches: filtering a concatenation is concatenating the filtered parts |
| `Xml.ForestAppend` | wadlDump.py:28-32 | the `.//` walk is in document order: the walk of earlier siblings comes whole before that of later ones |
| `Text.RStrip` | wadlDump.py:37 | `rstrip('/')` returns a prefix of its input; everything removed is `/`; the result does not end in `/` |
| `Text.LStrip` | wadlDump.py:37 | `lstrip('/')` returns a suffix of its input; everything removed is `/`; the result does not start with `/` |
| `Text.RStripUnique` | wadlDump.py:37 | `t` followed by any number of `/` strips back to `t` when `t` does not end in `/` |
| `Text.LStripUnique` | wadlDump.py:37 | any number of `/` followed by `t` strips back to `t` when `t` does not start with `/` |
| `Text.RStripIdempotent` | wadlDump.py:37 | stripping a second time removes nothing more |
| `Extractor.JoinCollapsesSlashes` | wadlDump.py:37 | joining base and path leaves exactly one `/` at the seam, whatever number of slashes end the base or start the path |
| `Extractor.MethodEndpoints` | wadlDump.py:35-38 | the inner loop gives one endpoint per direct method child, in child order, each with that method's verbatim `name` and the resource's full path |
| `Extractor.Collect` | wadlDump.py:31-38 | the only exception the walk can raise is the `AttributeError` of `None.lstrip` |
| `Extractor.ParseWadl` | wadlDump.py:21-43 | the nested loops return the walk's endpoint list and print nothing when it succeeds; on any exception they return `[]`, with nothing gathered before kept, and print one error line |
| `ExtractorProperties.Sites` | wadlDump.py:31-35 | the (resource, method) pairs number the total count of direct method children; each method is a direct child of its resource and is in the WADL namespace |
| `ExtractorProperties.SitesAppend` | wadlDump.py:32-35 | the pairs keep resource order: the pairs of earlier resources all come before those of later ones |
| `ExtractorProperties.SitesOfOne` | wadlDump.py:35 | within one resource the pairs follow its direct `method` children in child order |
| `ExtractorProperties.CollectFollowsSites` | wadlDump.py:31-38 | on success the k-th endpoint comes from the k-th pair: same count, the verb is the method's `name`, the path is the full path of that pair's resource |
| `ExtractorProperties.CollectRaisesIff` | wadlDump.py:33-38 | the walk raises exactly when the base is truthy and some resource that has a method child has no `path` |
| `ExtractorProperties.BaseIsFirstResources` | wadlDump.py:28-29 | the base is `""` when there is no `resources` descendant; otherwise it is the `base` attribute, possibly `None`, of the first one in document order |
| `ExtractorProperties.EndpointsFollowDocumentOrder` | wadlDump.py:31-38 | endpoints come resource by resource in document order, then in child order. Their number is the total count of direct method children. Each method is attributed to the resource it is a direct child of. Methods of one resource share one path |
| `ExtractorProperties.NoPartialResults` | wadlDump.py:22-43 | the result is an error exactly when the parse failed, or when the base is truthy and a resource with methods lacks `path`; then `[]` is returned and one error line is printed |
| `ExtractorProperties.FalsyBaseKeepsRawPaths` | wadlDump.py:29-37 | with a falsy base nothing raises, and every path is the resource's raw `path` attribute, unchanged, `None` included |
| `ExtractorProperties.ForeignNamespaceYieldsNothing` | wadlDump.py:26-35 | a tree without elements in the WADL 2009/02 namespace yields `[]` and no error |
| `ExtractorExamples.JoinTrailingSlashBase` | wadlDump.py:37 | `"http://api.example.com/"` joined with `users` is `http://api.example.com/users` |
| `ExtractorExamples.JoinLeadingSlashPath` | wadlDump.py:37 | `"http://x/v1"` joined with `/items/` is `http://x/v1/items/` |
| `ExtractorExamples.JoinStripsAllSlashes` | wadlDump.py:37 | `"http://x/v1//"` joined with `//items` is `http://x/v1/items`: every slash goes, not just one |
| `ExtractorExamples.SingleResourceWithBase` | wadlDump.py:28-38 | one `users` resource with a GET method under base `http://api.example.com/` gives exactly `[(GET, http://api.example.com/users)]` |
| `ExtractorExamples.SingleResourceWithoutBase` | wadlDump.py:28-38 | the same document without a `base` attribute gives `[(GET, users)]` |
| `ExtractorExamples.NestedResourceAttribution` | wadlDump.py:32-35 | a method under a nested resource is attributed only to the inner resource; the outer resource keeps only its own method |
| `ExtractorExamples.PathlessResourceDropsEverything` | wadlDump.py:37-43 | a first resource that on its own yields an endpoint is dropped too when a later resource lacks `path` under a truthy base; the result is `[]` plus one error line |
| `Presenter.ColorOf` | wadlDump.py:46-55 | the colour is a 5-character escape code; it is the default white exactly when the verb is not one of GET, POST, PUT, DELETE, PATCH, HEAD (and for `None`) |
| `Presenter.ColoredMethodRoundTrip` | wadlDump.py:45-55 | `colored_method` is the colour code, `[`, the verb as printed, `]`, then the reset code; the verb can be read back from it |
| `Presenter.KnownVerbsHaveDistinctColors` | wadlDump.py:46-53 | the six known verbs have pairwise distinct colours, none of them the default |
| `Presenter.EndpointLines` | wadlDump.py:76-77 | one line per endpoint, in list order; the i-th line is `colored_method(method) + " " + path` of the i-th endpoint |
| `Presenter.RenderEmptyIff` | wadlDump.py:75-79 | the notice `No endpoints found or error in parsing.` is printed, alone, exactly when the list is empty; otherwise it is not among the lines |
| `Cli.UrlPrefixIsCaseSensitive` | wadlDump.py:64 | `http://…` and `https://…` are URLs; every URL starts with lower-case `http`; `HTTP://…` is not a URL |
| `Cli.FetchFailureStopsEarly` | wadlDump.py:64-68 | after a failed download `main` itself prints only `Failed to retrieve WADL from URL.`; nothing is parsed or removed, whatever the parse or the file system would have done |
| `Cli.RunPrintsEndpoints` | wadlDump.py:70-79 | otherwise the run crashes exactly when it hands a path to `os.remove` and that call raises. Then only the parse error, if any, was printed, and never the notice. Without a crash the output is the endpoint lines or the notice; after a failed parse it is exactly the error line followed by the notice |
| `Cli.MissingTempFileCrashes` | wadlDump.py:70-79 | a missing local file `/tmp/missing.wadl` with temporary directory `/tmp` prints the parse error; then `os.remove` raises on the same file, and the notice never appears |
| `Cli.LocalFileUnderTempDirIsRemoved` | wadlDump.py:72-73 | as written, a local source such as `/tmp/api.wadl` is handed to `os.remove` when the temporary directory is `/tmp`, and so is `/tmpdata/api.wadl` |
| `Cli.OwnedCleanupSparesCallerFiles` | wadlDump.py:72-73 | the corrected clean-up never removes a path the caller supplied, so such a run never crashes and prints everything. For URL sources it does exactly what the code does. Wherever the code's run does not crash, both print the same lines |

## Left out

- `fetch_wadl_from_url` (wadlDump.py:7-19) is not modelled: the HTTP request, the status check and writing the temporary file are network and file I/O. Its result enters `Cli.Run` as the parameter `fetched`. Its own error line is not among the modelled output.
- `ET.parse` and `getroot` (wadlDump.py:23-24): XML lexing and parsing are a library call. A `Document` is their outcome. A parse error's message is a parameter. Comments, processing instructions and namespaced attributes are not represented.
- `argparse` (wadlDump.py:58-60), `print` and the process exit status are not modelled. Printed lines are returned as a sequence of strings.
- `os.remove` and `tempfile.gettempdir()` (wadlDump.py:72-73): the model records which path is handed to `os.remove`. Whether that call raises is a parameter. The temporary directory is a parameter. The traceback an uncaught exception writes to standard error is not modelled: the run is only marked as crashed.
- ANSI escape codes are opaque text. How a terminal renders them is not modelled.
- Running the extraction twice on the same document gives the same result, because `Extract` is a function. No separate lemma states this.

## Findings

| source | as written | input that shows it | evidently intended | confidence | as-written member | corrected member |
|---|---|---|---|---|---|---|
| wadlDump.py:72-73 | after parsing, any resolved path that starts with `tempfile.gettempdir()` is deleted, including a local file the user named, and any path that only shares the directory's prefix. If that file is missing, `os.remove` raises and `main` ends before printing the notice | `wadlDump /tmp/api.wadl` with temporary directory `/tmp` deletes the user's file. `/tmpdata/api.wadl` is deleted too. `wadlDump /tmp/missing.wadl` crashes after the parse error | only the file downloaded by `fetch_wadl_from_url` is deleted | medium, not executed | `Cli.Run` (shown by `Cli.LocalFileUnderTempDirIsRemoved` and `Cli.MissingTempFileCrashes`) | `Cli.RunOwnedCleanup` (proved by `Cli.OwnedCleanupSparesCallerFiles`) |
