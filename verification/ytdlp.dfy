/** The yt-dlp side of the resolver: the argument builder shared by every invocation,
    the query rewriting and field defaulting of the metadata lookup. The process itself
    is an input: how it ended, what it printed, and what `JSON.parse` made of it. */
module Ytdlp {
  import opened Basics

  /** Track metadata as the player stores it. */
  datatype VideoInfo = VideoInfo(title: string, duration: nat, url: string, thumbnail: string, uploader: string)

  // ----- buildYtdlpArgs -----

  /** Provider used when `POT_PROVIDER_URL` is unset or empty. */
  const DefaultPotProvider: string := "http://localhost:4416"

  /** The module-level `POT_PROVIDER_URL` constant: the environment value, or the default. */
  function PotProviderUrl(env: Option<string>): (u: string)
    ensures u != ""
    ensures Truthy(env) ==> u == env.value
    ensures !Truthy(env) ==> u == DefaultPotProvider
  {
    OrElse(env, DefaultPotProvider)
  }

  const TokenArgPrefix: string := "youtube:po_token_url="
  const TokenArgSuffix: string := "/token"

  /** The token provider an `--extractor-args` value names, if it names one. */
  function TokenProvider(v: string): Option<string> {
    if |v| >= |TokenArgPrefix| + |TokenArgSuffix| && StartsWith(v, TokenArgPrefix)
       && v[|v| - |TokenArgSuffix|..] == TokenArgSuffix
    then Some(v[|TokenArgPrefix|..|v| - |TokenArgSuffix|])
    else None
  }

  /** The `--extractor-args` value chosen by whether the environment names a token
      provider: the provider configured is the one the value names, and without one the
      value names none. */
  function ExtractorArgs(env: Option<string>): (v: string)
    ensures TokenProvider(v) == (if Truthy(env) then Some(env.value) else None)
  {
    if Truthy(env) then
      var v := TokenArgPrefix + PotProviderUrl(env) + TokenArgSuffix;
      assert v[..|TokenArgPrefix|] == TokenArgPrefix;
      assert v[|v| - |TokenArgSuffix|..] == TokenArgSuffix;
      assert v[|TokenArgPrefix|..|v| - |TokenArgSuffix|] == env.value;
      v
    else
      var v := "youtube:player_client=android,web";
      assert v[9] != TokenArgPrefix[9];
      v
  }

  /** `buildYtdlpArgs(baseArgs)`: a new list holding the base arguments unchanged, then
      `--extractor-args`, its value, and `--no-check-certificates`. `env` is the value of
      `process.env.POT_PROVIDER_URL`. */
  function BuildYtdlpArgs(base: seq<string>, env: Option<string>): (args: seq<string>)
    ensures |args| == |base| + 3
    ensures args[..|base|] == base
    ensures args[|base|] == "--extractor-args" && args[|base| + 2] == "--no-check-certificates"
    ensures Truthy(env) ==> args[|base| + 1] == "youtube:po_token_url=" + env.value + "/token"
    ensures !Truthy(env) ==> args[|base| + 1] == "youtube:player_client=android,web"
  {
    base + ["--extractor-args", ExtractorArgs(env), "--no-check-certificates"]
  }

  // ----- getYtdlpInfo -----

  /** The query is a URL exactly when it starts with `http://` or `https://`. */
  predicate IsUrlQuery(query: string) {
    StartsWith(query, "http://") || StartsWith(query, "https://")
  }

  const SearchPrefix: string := "ytsearch1:"

  /** The query a search term was made from: the term with a leading `ytsearch1:` removed. */
  function QueryOfSearch(term: string): string {
    if StartsWith(term, SearchPrefix) then term[|SearchPrefix|..] else term
  }

  /** The search term yt-dlp is given: a URL verbatim, anything else as a first-hit search;
      either way the query is recovered from it. */
  function SearchQuery(query: string): (q: string)
    ensures q == query <==> IsUrlQuery(query)
    ensures !IsUrlQuery(query) ==> q == SearchPrefix + query
    ensures QueryOfSearch(q) == query
  {
    if IsUrlQuery(query) then
      assert query[0] == 'h' && SearchPrefix[0] == 'y';
      query
    else
      var q := SearchPrefix + query;
      assert q[..|SearchPrefix|] == SearchPrefix;
      assert q[|SearchPrefix|..] == query;
      q
  }

  /** The argument list of the metadata lookup: the three lookup flags, the search term,
      then the shared arguments. */
  function InfoArgs(query: string, env: Option<string>): (a: seq<string>)
    ensures |a| == 7
    ensures a[..3] == ["--dump-json", "--no-playlist", "--skip-download"]
    ensures a[3] == SearchQuery(query) && QueryOfSearch(a[3]) == query
    ensures a[4] == "--extractor-args" && TokenProvider(a[5]) == (if Truthy(env) then Some(env.value) else None)
    ensures a[6] == "--no-check-certificates"
  {
    BuildYtdlpArgs(["--dump-json", "--no-playlist", "--skip-download", SearchQuery(query)], env)
  }

  /** The fields of the parsed JSON object that are read; `None` is an absent or null field.
      Only whole-second, non-negative durations are represented. */
  datatype InfoJson = InfoJson(
    title: Option<string>, duration: Option<nat>, webpageUrl: Option<string>,
    url: Option<string>, thumbnail: Option<string>, uploader: Option<string>)

  /** How the metadata process ended: it closed with an exit code (what it printed on
      stdout and stderr, and what `JSON.parse` made of stdout: `None` when it throws), or
      it could not be spawned. */
  datatype InfoRun =
    | Closed(code: int, stdout: string, stderr: string, parsed: Option<InfoJson>)
    | SpawnFailed(message: string)

  /** The three ways the lookup rejects, with the message of the `Error` it rejects with. */
  datatype InfoError =
    | ProcessFailed(message: string)
    | ParseFailed(message: string)
    | SpawnError(message: string)

  /** `info.duration || 0`. */
  function DurationOrZero(d: Option<nat>): nat {
    if d.Some? then d.value else 0
  }

  /** The record built from a parsed object, with the source's fallbacks for missing
      or falsy fields. */
  function InfoFromJson(j: InfoJson, query: string): (v: VideoInfo)
    ensures v.title != "" && v.uploader != "" && (query != "" ==> v.url != "")
    ensures v.title == (if Truthy(j.title) then j.title.value else "Unknown")
    ensures v.uploader == (if Truthy(j.uploader) then j.uploader.value else "Unknown")
    ensures v.thumbnail == (if Truthy(j.thumbnail) then j.thumbnail.value else "")
    ensures v.duration == (if j.duration.Some? then j.duration.value else 0)
    ensures v.url == (if Truthy(j.webpageUrl) then j.webpageUrl.value
                      else if Truthy(j.url) then j.url.value else query)
  {
    VideoInfo(
      title := OrElse(j.title, "Unknown"),
      duration := DurationOrZero(j.duration),
      url := OrElse(j.webpageUrl, OrElse(j.url, query)),
      thumbnail := OrElse(j.thumbnail, ""),
      uploader := OrElse(j.uploader, "Unknown"))
  }

  /** `getYtdlpInfo(query)`: resolves with the defaulted record when the process exits 0
      with some output that parses; rejects otherwise. */
  function GetYtdlpInfo(query: string, run: InfoRun): (r: Result<VideoInfo, InfoError>)
    ensures r.Ok? <==> run.Closed? && run.code == 0 && run.stdout != "" && run.parsed.Some?
    ensures r.Ok? ==> r.value == InfoFromJson(run.parsed.value, query)
    ensures r.Ok? ==> r.value.title != "" && r.value.uploader != "" && (query != "" ==> r.value.url != "")
    ensures run.Closed? && (run.code != 0 || run.stdout == "") ==>
      r == Err(ProcessFailed("yt-dlp failed: " + OrElse(Some(run.stderr), "Unknown error")))
    ensures run.Closed? && run.code == 0 && run.stdout != "" && run.parsed.None? ==>
      r == Err(ParseFailed("Failed to parse video info"))
    ensures run.SpawnFailed? ==> r == Err(SpawnError("Failed to spawn yt-dlp: " + run.message))
  {
    match run
    case SpawnFailed(m) => Err(SpawnError("Failed to spawn yt-dlp: " + m))
    case Closed(code, out, err, parsed) =>
      if code == 0 && out != "" then
        match parsed
        case Some(j) => Ok(InfoFromJson(j, query))
        case None => Err(ParseFailed("Failed to parse video info"))
      else Err(ProcessFailed("yt-dlp failed: " + OrElse(Some(err), "Unknown error")))
  }
}
