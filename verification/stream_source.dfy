/** How `playNext` picks the audio source for the item it starts: the direct-URL
    transcoder ("fast path") or yt-dlp piped into the transcoder ("pipe path"). Whether
    creating the direct stream throws, and what a fresh `getDirectOpusUrl` returns, are
    inputs. */
module StreamSource {
  import opened Basics

  /** The transcoder either reads a direct media URL or the output of yt-dlp for the page URL. */
  datatype Source = Direct(mediaUrl: string) | Pipe(pageUrl: string)

  /** The source picked, `usedFast` as the source computes it, and whether a fresh
      direct-URL resolution was started. */
  datatype Choice = Choice(source: Source, usedFast: bool, resolvedFresh: bool)

  /** The decision tree of `playNext`: a cached URL is tried directly and on failure the
      pipe is used with no new resolution; without one a URL is resolved, tried directly
      if one came back, and the pipe is used when none did or the direct stream failed. */
  function ChooseSource(cached: Option<string>, pageUrl: string, resolved: Option<string>,
                        directThrows: bool): (c: Choice)
    ensures c.usedFast <==> c.source.Direct?
    ensures c.source.Pipe? ==> c.source.pageUrl == pageUrl
    ensures c.resolvedFresh <==> !Truthy(cached)
    ensures c.source.Pipe? <==> directThrows || (!Truthy(cached) && !Truthy(resolved))
    ensures c.source.Direct? ==>
      (c.source.mediaUrl == (if Truthy(cached) then cached.value else resolved.value) && c.source.mediaUrl != "")
  {
    if Truthy(cached) then
      if !directThrows then Choice(Direct(cached.value), true, false)
      else Choice(Pipe(pageUrl), false, false)
    else if Truthy(resolved) then
      if !directThrows then Choice(Direct(resolved.value), true, true)
      else Choice(Pipe(pageUrl), false, true)
    else Choice(Pipe(pageUrl), false, true)
  }

  /** The attempts in the order they are made: at most one direct URL, then the pipe. */
  function Plan(cached: Option<string>, pageUrl: string, resolved: Option<string>): (p: seq<Source>)
    ensures 1 <= |p| <= 2 && p[|p| - 1] == Pipe(pageUrl)
    ensures forall i :: 0 <= i < |p| - 1 ==> p[i].Direct?
  {
    if Truthy(cached) then [Direct(cached.value), Pipe(pageUrl)]
    else if Truthy(resolved) then [Direct(resolved.value), Pipe(pageUrl)]
    else [Pipe(pageUrl)]
  }

  /** An attempt succeeds unless it is a direct one and the direct stream throws. */
  predicate Succeeds(s: Source, directThrows: bool) {
    s.Pipe? || !directThrows
  }

  /** Index of the first attempt of a plan that succeeds; the last attempt, the pipe, always does. */
  function FirstSuccess(plan: seq<Source>, directThrows: bool): (i: nat)
    requires |plan| >= 1 && plan[|plan| - 1].Pipe?
    ensures i < |plan| && Succeeds(plan[i], directThrows)
    ensures forall j :: 0 <= j < i ==> !Succeeds(plan[j], directThrows)
  {
    if Succeeds(plan[0], directThrows) then 0 else 1 + FirstSuccess(plan[1..], directThrows)
  }

  /** The decision tree is exactly "take the first attempt that works" over the ordered
      plan, and the plan never retries resolution after a cached URL fails. */
  lemma ChooseSourceIsFirstSuccess(cached: Option<string>, pageUrl: string, resolved: Option<string>,
                                   directThrows: bool)
    ensures var p := Plan(cached, pageUrl, resolved);
      ChooseSource(cached, pageUrl, resolved, directThrows).source == p[FirstSuccess(p, directThrows)]
    ensures Truthy(cached) ==> Plan(cached, pageUrl, resolved) == [Direct(cached.value), Pipe(pageUrl)]
  {
    var p := Plan(cached, pageUrl, resolved);
    if |p| == 2 && !Succeeds(p[0], directThrows) {
      assert p[1..] == [Pipe(pageUrl)];
    }
  }
}
