/** `colored_method` (wadlDump.py:45-55) and the output loop of `main`
    (wadlDump.py:75-79): each endpoint becomes one colour-coded line. ANSI
    escape sequences are opaque text here; how a terminal renders them is not
    modelled. */
module Presenter {
  import opened Wrappers
  import opened Extractor

  const Esc: char := '\U{1b}'
  const Reset := "\U{1b}[0m"
  const DefaultColor := "\U{1b}[97m"

  /** The fixed colour table of `colored_method`. */
  const Colors: map<string, string> := map[
    "GET" := "\U{1b}[92m",
    "POST" := "\U{1b}[94m",
    "PUT" := "\U{1b}[93m",
    "DELETE" := "\U{1b}[91m",
    "PATCH" := "\U{1b}[95m",
    "HEAD" := "\U{1b}[96m"
  ]

  /** The single line printed when the list is empty. */
  const NoEndpointsLine := "No endpoints found or error in parsing."

  /** `str(x)` of an attribute value: the text itself, or `"None"`. */
  function Str(value: Option<string>): string
  {
    match value
    case Some(s) => s
    case None => "None"
  }

  /** `colors.get(method, '\033[97m')`; `None` is not a key of the table. */
  function ColorOf(verb: Option<string>): (r: string)
    ensures |r| == 5 && r[0] == Esc && r[1] == '[' && r[4] == 'm'
    ensures r == DefaultColor <==> !(verb.Some? && verb.value in Colors)
  {
    if verb.Some? && verb.value in Colors then Colors[verb.value] else DefaultColor
  }

  /** `colored_method(method)`: colour code, the verb in brackets, reset. */
  function ColoredMethod(verb: Option<string>): string
  {
    ColorOf(verb) + "[" + Str(verb) + "]" + Reset
  }

  /** The text between the colour code with its `[` and the `]` with the reset. */
  function Label(colored: string): string
    requires |colored| >= 11
  {
    colored[6..|colored| - 5]
  }

  /** The coloured form keeps the verb readable: it is a 5-character colour
      code, `[`, the verb as `str` prints it, `]` and the reset code, so the
      verb can be read back from it. */
  lemma ColoredMethodRoundTrip(verb: Option<string>)
    ensures var r := ColoredMethod(verb);
      && |r| == |Str(verb)| + 11
      && r[..5] == ColorOf(verb) && r[5] == '[' && r[|r| - 5..] == "]" + Reset
      && Label(r) == Str(verb)
  {
    var r := ColoredMethod(verb);
    assert r == ColorOf(verb) + "[" + Str(verb) + "]" + Reset;
    assert r[..5] == ColorOf(verb);
    assert r[6..|r| - 5] == Str(verb);
  }

  /** Each of the six known verbs has its own colour, none of them the
      default one used for every other token. */
  lemma KnownVerbsHaveDistinctColors(v: string, w: string)
    requires v in Colors && w in Colors && v != w
    ensures ColorOf(Some(v)) != ColorOf(Some(w))
    ensures ColorOf(Some(v)) != DefaultColor
  {
  }

  /** One output line: `f"{colored_method(method)} {path}"`. */
  function Line(e: Endpoint): string
  {
    ColoredMethod(e.verb) + " " + Str(e.path)
  }

  /** The lines printed for a non-empty list: one per endpoint, in order. */
  function EndpointLines(endpoints: seq<Endpoint>): (r: seq<string>)
    ensures |r| == |endpoints|
    ensures forall i :: 0 <= i < |endpoints| ==> r[i] == Line(endpoints[i])
  {
    if endpoints == [] then [] else EndpointLines(endpoints[..|endpoints| - 1]) + [Line(endpoints[|endpoints| - 1])]
  }

  /** What `main` prints after parsing: one line per endpoint, or the single
      notice when the list is empty (the list's truthiness). */
  function Render(endpoints: seq<Endpoint>): seq<string>
  {
    if endpoints == [] then [NoEndpointsLine] else EndpointLines(endpoints)
  }

  /** The notice appears alone exactly when there is nothing to show: no
      endpoint line can be mistaken for it, since every one starts with an
      escape character. */
  lemma RenderEmptyIff(endpoints: seq<Endpoint>)
    ensures Render(endpoints) == [NoEndpointsLine] <==> endpoints == []
    ensures endpoints != [] ==> NoEndpointsLine !in Render(endpoints)
    ensures |Render(endpoints)| == if endpoints == [] then 1 else |endpoints|
  {
    if endpoints != [] {
      forall i | 0 <= i < |endpoints|
        ensures Render(endpoints)[i] != NoEndpointsLine
      {
        var line := Line(endpoints[i]);
        assert line[0] == ColorOf(endpoints[i].verb)[0] == Esc;
        assert NoEndpointsLine[0] == 'N';
      }
    }
  }
}
