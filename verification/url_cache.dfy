/** The direct-URL cache behind `getDirectOpusUrl`: a process-wide map from video id to
    a resolved media URL with an absolute expiry in milliseconds. Lookup serves an entry
    only before its expiry and evicts it lazily otherwise; a successful extraction is
    cached for five hours when the URL has an id; nothing ever rejects. The clock and
    the extraction process are inputs. */
module UrlCache {
  import opened Basics
  import opened Text
  import opened VideoId

  datatype CachedUrl = CachedUrl(url: string, expires: nat, clientType: string)

  type Cache = map<string, CachedUrl>

  /** Five hours in milliseconds. */
  const TtlMs: nat := 5 * 60 * 60 * 1000

  /** How the `yt-dlp --get-url` process ended: closed with an exit code and its collected
      stdout, at time `closedAt`; or the spawn failed. A process killed by a signal (a
      null exit code) is a non-zero code here. */
  datatype Extraction =
    | Exited(code: int, stdout: string, closedAt: nat)
    | SpawnError

  /** What one call leaves behind: the cache, the value the promise resolves with, and
      whether an extraction process was started. */
  datatype Lookup = Lookup(cache: Cache, url: Option<string>, extracted: bool)

  /** An unexpired entry exists for the id of `url` at time `now`. */
  predicate FreshHit(cache: Cache, url: string, now: nat) {
    var id := ExtractVideoId(url);
    id.Some? && id.value in cache && now < cache[id.value].expires
  }

  /** The extraction succeeded: exit code 0 and something other than white space printed. */
  predicate ExtractionSucceeded(ex: Extraction) {
    ex.Exited? && ex.code == 0 && Trim(ex.stdout) != ""
  }

  /** `getDirectOpusUrl(url)` at time `now`, with `ex` standing for the extraction process
      when one is started. */
  function GetDirectOpusUrl(cache: Cache, url: string, now: nat, ex: Extraction): (r: Lookup)
    // served from the cache, without extraction, exactly when an unexpired entry exists
    ensures !r.extracted <==> FreshHit(cache, url, now)
    ensures !r.extracted ==> r.cache == cache && r.url == Some(cache[ExtractVideoId(url).value].url)
    // otherwise the promise resolves with the trimmed output, or null on any failure
    ensures r.extracted ==> (r.url.Some? <==> ExtractionSucceeded(ex))
    ensures r.extracted && r.url.Some? ==> r.url.value == Trim(ex.stdout)
    // an expired entry is gone unless the fresh result replaced it
    ensures var id := ExtractVideoId(url);
      r.extracted && id.Some? && id.value in cache && r.url.None? ==> id.value !in r.cache
    // a success is cached under the id for five hours from when the process closed
    ensures var id := ExtractVideoId(url);
      r.extracted && id.Some? && r.url.Some? ==>
        id.value in r.cache && r.cache[id.value] == CachedUrl(r.url.value, ex.closedAt + TtlMs, "web")
    // a URL without an id is never cached, and no other key is touched
    ensures ExtractVideoId(url).None? ==> r.cache == cache
    ensures forall k :: k in r.cache && k in cache && r.cache[k] != cache[k] ==> Some(k) == ExtractVideoId(url)
    ensures forall k :: (k in r.cache <==> k in cache) || Some(k) == ExtractVideoId(url)
    // a null result is never cached
    ensures r.url.None? ==> r.cache.Keys <= cache.Keys && forall k :: k in r.cache ==> r.cache[k] == cache[k]
  {
    var id := ExtractVideoId(url);
    if id.Some? && id.value in cache && now < cache[id.value].expires then
      Lookup(cache, Some(cache[id.value].url), false)
    else
      var evicted := if id.Some? && id.value in cache then cache - {id.value} else cache;
      if ExtractionSucceeded(ex) then
        var direct := Trim(ex.stdout);
        var filled := if id.Some? then evicted[id.value := CachedUrl(direct, ex.closedAt + TtlMs, "web")] else evicted;
        Lookup(filled, Some(direct), true)
      else
        Lookup(evicted, None, true)
  }

  /** A non-empty string with white space at neither end: what `trim` can return. */
  predicate IsTrimmedUrl(s: string) {
    s != "" && !IsJsSpace(s[0]) && !IsJsSpace(s[|s| - 1])
  }

  /** Every entry holds a non-empty, already trimmed URL tagged `web`. */
  predicate WellFormed(cache: Cache) {
    forall k :: k in cache ==> IsTrimmedUrl(cache[k].url) && cache[k].clientType == "web"
  }

  /** Lookups keep the cache well formed, and whatever they resolve with is a non-empty
      trimmed URL or null: a caller's truthiness test is the same as a null test. */
  lemma GetDirectOpusUrlKeepsWellFormed(cache: Cache, url: string, now: nat, ex: Extraction)
    requires WellFormed(cache)
    ensures var r := GetDirectOpusUrl(cache, url, now, ex);
      WellFormed(r.cache) && (r.url.Some? ==> IsTrimmedUrl(r.url.value))
  {
    var r := GetDirectOpusUrl(cache, url, now, ex);
    if r.extracted && r.url.Some? {
      var d := Trim(ex.stdout);
      assert r.url.value == d && IsTrimmedUrl(d);
      forall k | k in r.cache
        ensures IsTrimmedUrl(r.cache[k].url) && r.cache[k].clientType == "web"
      {
        if k !in cache || r.cache[k] != cache[k] {
          assert r.cache[k] == CachedUrl(d, ex.closedAt + TtlMs, "web");
        }
      }
    }
  }

  /** Time-to-live: once a URL with an id has been resolved, asking again before five
      hours have passed from the close of the extraction returns the identical URL with no
      new extraction, whatever that extraction would have done; asking at or after that
      instant evicts the entry and extracts afresh. */
  lemma {:induction false} CachedUntilExpiry(cache: Cache, url: string, now: nat, ex: Extraction,
                                             later: nat, ex2: Extraction)
    requires ExtractVideoId(url).Some?
    requires var r := GetDirectOpusUrl(cache, url, now, ex); r.extracted && r.url.Some?
    ensures var r := GetDirectOpusUrl(cache, url, now, ex);
      var r2 := GetDirectOpusUrl(r.cache, url, later, ex2);
      && (later < ex.closedAt + TtlMs ==> !r2.extracted && r2.url == r.url && r2.cache == r.cache)
      && (later >= ex.closedAt + TtlMs ==> r2.extracted && (r2.url.None? ==> ExtractVideoId(url).value !in r2.cache))
  {
    var r := GetDirectOpusUrl(cache, url, now, ex);
    var id := ExtractVideoId(url).value;
    assert r.cache[id].expires == ex.closedAt + TtlMs;
  }
}
