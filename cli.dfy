/** `main` (wadlDump.py:57-79) as a function from its inputs to what it prints
    and which file it deletes. The outside world enters as parameters: the
    path `fetch_wadl_from_url` returned (or `None`), the directory
    `tempfile.gettempdir()` names, and what `ET.parse` made of the resolved
    path. Argument parsing and the printing itself are not modelled. */
module Cli {
  import opened Wrappers
  import opened Xml
  import opened Text
  import opened Extractor
  import opened Presenter

  const FetchFailedLine := "Failed to retrieve WADL from URL."

  /** The source is fetched over HTTP exactly when it starts, case-sensitively,
      with `http://` or `https://`. */
  predicate IsUrl(source: string)
  {
    StartsWith(source, "http://") || StartsWith(source, "https://")
  }

  /** The observable effect of one run: the lines printed by `main` and by
      `parse_wadl`, the path handed to `os.remove`, if any, and whether that
      call raised, which ends `main` with an uncaught exception before any
      endpoint or notice is printed. */
  datatype Outcome = Outcome(output: seq<string>, removal: Option<string>, crashed: bool)

  /** Python truthiness of the value `fetch_wadl_from_url` returned. */
  predicate Fetched(fetched: Option<string>)
  {
    fetched.Some? && fetched.value != ""
  }

  /** The part of `main` after parsing: the clean-up of `removal`, if any,
      then the endpoint lines or the notice. `removeFails` says whether the
      file system makes `os.remove` raise on that path (the file is missing,
      or may not be deleted). */
  function Finish(parsed: Document, removal: Option<string>, removeFails: bool): Outcome
  {
    if removal.Some? && removeFails then Outcome(ErrorLog(parsed), removal, true)
    else Outcome(ErrorLog(parsed) + Render(Extract(parsed)), removal, false)
  }

  /** `main` as written: after parsing, any truthy resolved path that starts
      with the temporary directory is removed, whoever supplied it. */
  function Run(source: string, fetched: Option<string>, tempDir: string, parsed: Document, removeFails: bool): Outcome
  {
    if IsUrl(source) && !Fetched(fetched) then Outcome([FetchFailedLine], None, false)
    else
      var filePath := if IsUrl(source) then fetched.value else source;
      var removal := if filePath != "" && StartsWith(filePath, tempDir) then Some(filePath) else None;
      Finish(parsed, removal, removeFails)
  }

  /** `main` with the clean-up limited to the file it downloaded itself. */
  function RunOwnedCleanup(source: string, fetched: Option<string>, tempDir: string, parsed: Document, removeFails: bool): Outcome
  {
    if IsUrl(source) && !Fetched(fetched) then Outcome([FetchFailedLine], None, false)
    else
      var removal := if IsUrl(source) && StartsWith(fetched.value, tempDir) then fetched else None;
      Finish(parsed, removal, removeFails)
  }

  /** The URL test is a case-sensitive prefix test: both schemes with any
      rest are URLs, and anything that is a URL begins with lower-case `http`. */
  lemma UrlPrefixIsCaseSensitive(rest: string, source: string)
    ensures IsUrl("http://" + rest) && IsUrl("https://" + rest)
    ensures IsUrl(source) ==> |source| >= 7 && source[..4] == "http"
    ensures !IsUrl("HTTP://" + rest)
  {
    assert ("http://" + rest)[..7] == "http://";
    assert ("https://" + rest)[..8] == "https://";
    var upper := "HTTP://" + rest;
    assert upper[0] == 'H';
    if StartsWith(source, "http://") {
      assert source[..4] == "http://"[..4];
    } else if StartsWith(source, "https://") {
      assert source[..4] == "https://"[..4];
    }
  }

  /** A failed download stops the run: one line, no parse, nothing removed,
      whatever the parse or the file system would have done. */
  lemma FetchFailureStopsEarly(source: string, fetched: Option<string>, tempDir: string)
    requires IsUrl(source) && !Fetched(fetched)
    ensures forall parsed, removeFails ::
      Run(source, fetched, tempDir, parsed, removeFails) == Outcome([FetchFailedLine], None, false)
  {
  }

  /** Otherwise the run crashes exactly when it tries a removal that raises.
      When it does not, it prints the parse error, if any, then the endpoint
      lines or the single notice; a failed parse prints exactly the error and
      the notice. When it does, only the parse error, if any, was printed. */
  lemma RunPrintsEndpoints(source: string, fetched: Option<string>, tempDir: string, parsed: Document, removeFails: bool)
    requires !IsUrl(source) || Fetched(fetched)
    ensures var o := Run(source, fetched, tempDir, parsed, removeFails);
      && (o.crashed <==> o.removal.Some? && removeFails)
      && (!o.crashed && Walk(parsed).Ok? ==> o.output == Render(Walk(parsed).value))
      && (!o.crashed && Walk(parsed).Raised? ==> o.output == [ParseErrorPrefix + Walk(parsed).message, NoEndpointsLine])
      && (o.crashed ==> o.output == ErrorLog(parsed) && NoEndpointsLine !in o.output)
  {
    if Walk(parsed).Raised? {
      assert (ParseErrorPrefix + Walk(parsed).message)[0] == 'E' != NoEndpointsLine[0];
    }
  }

  /** A local path under the temporary directory that does not exist: the
      parse error is printed, then `os.remove` raises on the same missing
      file, and the notice never appears. */
  lemma MissingTempFileCrashes(m: string)
    ensures Run("/tmp/missing.wadl", None, "/tmp", Malformed(m), true) ==
      Outcome([ParseErrorPrefix + m], Some("/tmp/missing.wadl"), true)
  {
    assert "/tmp/missing.wadl"[..4] == "/tmp";
    assert "/tmp/missing.wadl"[0] == '/' && "http://"[0] == 'h' && "https://"[0] == 'h';
  }

  /** The clean-up test is a bare prefix test on the resolved path, so a
      local file the caller named is handed to `os.remove` when it lies under
      the temporary directory, and so is a sibling path that merely shares
      its prefix. */
  lemma LocalFileUnderTempDirIsRemoved(parsed: Document, removeFails: bool)
    ensures Run("/tmp/api.wadl", None, "/tmp", parsed, removeFails).removal == Some("/tmp/api.wadl")
    ensures Run("/tmpdata/api.wadl", None, "/tmp", parsed, removeFails).removal == Some("/tmpdata/api.wadl")
  {
    assert "/tmp/api.wadl"[..4] == "/tmp";
    assert "/tmpdata/api.wadl"[..4] == "/tmp";
    assert "/tmp/api.wadl"[0] == '/' && "/tmpdata/api.wadl"[0] == '/';
    assert "http://"[0] == 'h' && "https://"[0] == 'h';
    assert !IsUrl("/tmp/api.wadl") && !IsUrl("/tmpdata/api.wadl");
  }

  /** With the clean-up limited to downloads, a path the caller supplied is
      never removed and so can never make the run crash: it prints everything.
      A downloaded file is handled exactly as before, and wherever the
      original run does not crash, both print the same lines. */
  lemma OwnedCleanupSparesCallerFiles(source: string, fetched: Option<string>, tempDir: string, parsed: Document, removeFails: bool)
    ensures !IsUrl(source) ==>
      RunOwnedCleanup(source, fetched, tempDir, parsed, removeFails) == Outcome(ErrorLog(parsed) + Render(Extract(parsed)), None, false)
    ensures IsUrl(source) ==>
      RunOwnedCleanup(source, fetched, tempDir, parsed, removeFails) == Run(source, fetched, tempDir, parsed, removeFails)
    ensures !Run(source, fetched, tempDir, parsed, removeFails).crashed ==>
      RunOwnedCleanup(source, fetched, tempDir, parsed, removeFails).output == Run(source, fetched, tempDir, parsed, removeFails).output
  {
  }
}
