# dcbot playback core in Dafny

This project models the playback core of a Discord music bot. That core has two parts.

- `src/lib/player.ts` keeps a registry of one playback queue per guild. `play` enqueues a
  track. The audio player's Idle and error listeners call `playNext`, which takes the head
  of the pending list, makes it the current item, and starts a stream for it. While the
  current track plays, `playNext` resolves the next item's direct media URL in the
  background. `skip`, `pause` and `resume` are guarded commands. `destroyPlayer` clears the
  registry.
- `src/lib/ytdlp-stream.ts` holds the yt-dlp side:
  - `formatDuration`
  - `extractVideoId`
  - the time-to-live cache of direct URLs behind `getDirectOpusUrl`
  - the query rewriting and field defaulting of `getYtdlpInfo`
  - the argument builder `buildYtdlpArgs`

The model is functional. Queues, the registry and the URL cache are immutable values, and
every transition is a pure function. Anything the outside world decides is a parameter of
the transition it affects:

- the yt-dlp processes
- the voice connection
- whether a stream throws
- the audio player's answers
- resolved URLs
- the clock

Background resolutions that are still running sit in an explicit in-flight list. Each one
completes as its own event, and sink Idle and error are events too, so `Player.Run`
replays any interleaving of them.

Item objects and queue objects are identified by numbers, because the source compares and
mutates them by reference and its callbacks capture them. A `Variant` parameter selects
either the handlers as the repository writes them (`AsWritten`) or with the two defects
under "## Findings" corrected (`Corrected`).

The modules are:

- `Basics`: `Option`, `Result`, JavaScript truthiness of optional strings.
- `Text`: JavaScript `trim`, decimal rendering and `padStart`, plus `split`, which the reference duration parser uses.
- `Duration`, `VideoId`, `Ytdlp`, `UrlCache`: the `ytdlp-stream.ts` functions.
- `StreamSource`: the three-way source decision of `playNext`.
- `Queue`: `GuildQueue` and `playNext` on one queue.
- `Player`: the registry and its transitions.
- `PlayerProofs`: the registry invariant, ordering, and the findings.

Three behaviours of `playNext` are easy to misread, and the model keeps them as written:

- After a cached URL fails to stream, `playNext` goes straight to the pipe. It never
  resolves a fresh URL. `StreamSource.ChooseSourceIsFirstSuccess` states this.
- A resolution that completes after its item has started is not discarded. It is written
  back anyway.
- Queue items carry no expiry of their own. Only the URL cache has one.

## Model

| member | source | states |
|---|---|---|
| Text.Trim | src/lib/ytdlp-stream.ts:144-145 | `output.trim()` returns a contiguous slice of the output. Only JavaScript white space lies outside the slice. The slice neither starts nor ends with white space, and it is empty exactly when the output is all white space. |
| Text.TrimIdempotent | src/lib/ytdlp-stream.ts:144-145 | Trimming an already trimmed URL changes nothing. |
| Text.DecimalRoundTrip | src/lib/ytdlp-stream.ts:228-230 | `toString()` of a natural number reads back as that number. |
| Text.PadStart | src/lib/ytdlp-stream.ts:228-230 | `padStart(2, '0')` keeps the digits as a suffix and fills with '0' up to the width. |
| Duration.FormatDurationFields | src/lib/ytdlp-stream.ts:222-231 | The rendering has three fields exactly when s >= 3600, and two otherwise. Seconds are always two digits. Minutes are two digits under an hours field and unpadded without one. The fields recompose s as h*3600 + m*60 + sec, with m < 60 and sec < 60. |
| Duration.FormatParseRoundTrip | src/lib/ytdlp-stream.ts:222-231 | Parsing the clock string back yields the number of seconds it was made from. |
| Duration.FormatDurationInjective | src/lib/ytdlp-stream.ts:222-231 | Two different durations never render to the same string. |
| VideoId.FirstMatchFrom | src/lib/ytdlp-stream.ts:171 | The regular-expression scan returns the first position at which one of the leads `v=`, `/` or `youtu.be/` is followed by 11 id characters. It returns none when no position matches. |
| VideoId.ExtractVideoId | src/lib/ytdlp-stream.ts:170-173 | A result has 11 characters from `[A-Za-z0-9_-]` and is the group captured by the leftmost match. The result is null exactly when nothing matches. |
| VideoId.WatchUrlYieldsId | src/lib/ytdlp-stream.ts:170-173 | A `https://www.youtube.com/watch?v=` URL followed by an 11-character id yields exactly that id. |
| Ytdlp.PotProviderUrl | src/lib/ytdlp-stream.ts:26 | The provider URL is never empty. It is the environment value when that is non-empty and `http://localhost:4416` otherwise. |
| Ytdlp.ExtractorArgs | src/lib/ytdlp-stream.ts:33-39 | The `--extractor-args` value names a token provider exactly when `POT_PROVIDER_URL` is set, and then it names that provider. |
| Ytdlp.BuildYtdlpArgs | src/lib/ytdlp-stream.ts:29-43 | The result is the base arguments unchanged, then exactly `--extractor-args`, then a value chosen by whether `POT_PROVIDER_URL` is set, then `--no-check-certificates`. |
| Ytdlp.SearchQuery | src/lib/ytdlp-stream.ts:178-179 | The query passes through unchanged exactly when it starts with `http://` or `https://`. Otherwise it is prefixed with `ytsearch1:`. Removing a leading `ytsearch1:` recovers the query either way. |
| Ytdlp.InfoArgs | src/lib/ytdlp-stream.ts:178-182 | The lookup runs with seven arguments: `--dump-json`, `--no-playlist`, `--skip-download`, the search term (a URL verbatim, anything else with the `ytsearch1:` prefix, the query recoverable either way), and the three shared arguments. |
| Ytdlp.InfoFromJson | src/lib/ytdlp-stream.ts:197-203 | Missing or empty title and uploader become 'Unknown'. A missing duration becomes 0 and a missing thumbnail ''. The URL falls back from `webpage_url` to `url` to the query. |
| Ytdlp.GetYtdlpInfo | src/lib/ytdlp-stream.ts:176-220 | The lookup resolves exactly when the process exits 0 with output that parses. A non-zero exit or empty output, a parse failure and a spawn failure each reject with their own message. A resolved record always has a non-empty title and uploader, and a non-empty URL when the query is non-empty. |
| UrlCache.GetDirectOpusUrl | src/lib/ytdlp-stream.ts:110-168 | No extraction runs exactly when an unexpired entry exists, and that entry's URL is returned. An expired entry is evicted. A success returns the trimmed output and caches it under the id for five hours, unless the URL has no id. Every failure resolves null and caches nothing. No other key changes. |
| UrlCache.GetDirectOpusUrlKeepsWellFormed | src/lib/ytdlp-stream.ts:143-159 | The cache only ever holds non-empty, trimmed URLs tagged 'web'. Every result is such a URL or null. |
| UrlCache.CachedUntilExpiry | src/lib/ytdlp-stream.ts:114-122 | After a successful extraction, asking again before five hours have passed returns the identical URL with no extraction. Asking at or after expiry evicts the entry and extracts afresh. |
| StreamSource.ChooseSource | src/lib/player.ts:165-196 | Exactly one source is chosen, and `usedFast` holds exactly for a direct stream. The pipe is used exactly when the direct stream throws or no truthy URL exists. A fresh resolution runs exactly when there is no cached URL. |
| StreamSource.FirstSuccess | src/lib/player.ts:165-196 | It picks the first attempt that succeeds, and every earlier attempt failed. |
| StreamSource.ChooseSourceIsFirstSuccess | src/lib/player.ts:165-196 | The decision tree equals "first success" over the ordered attempts: at most one direct URL, then the pipe. After a cached URL, that order is [cached, pipe]. |
| Queue.NewQueue | src/lib/player.ts:88-96 | A new queue is empty, not playing, has no current item, and has volume 80. |
| Queue.StartItem | src/lib/player.ts:165-204 | A start succeeds exactly when playing the resource does not throw and the chosen source does not throw. |
| Queue.HeadPrefetch | src/lib/player.ts:155-157 | `playNext` resolves the new head only when the head exists and has no truthy cached URL. |
| Queue.PlayNext | src/lib/player.ts:136-217 | The queue is left consistent: playing exactly when an item is current, and nothing pending while not playing. The pending items left are a suffix of the old ones in the same order. One start was attempted per item removed. |
| Queue.PlayNextCurrentIsNextInLine | src/lib/player.ts:149-151 | Strict FIFO: the current item is the last item removed, which came just before the remaining pending items. |
| Queue.PlayNextHeadStarts | src/lib/player.ts:149-151 | When the head starts, it becomes current and the tail stays pending. |
| Queue.PlayNextAttemptsInOrder | src/lib/player.ts:149-216 | Starts are attempted in queue order, one per removed item, and each attempt is the start of that item under the outside world's behaviour for it. |
| Queue.PlayNextSkipsFailingItem | src/lib/player.ts:213-216 | An item whose start throws is never left as the current item, whatever its position. |
| Queue.PlayNextIssuesPerAttempt | src/lib/player.ts:149-163 | The resolutions `playNext` issues are one head prefetch per attempted start, in order: attempt i prefetches item i + 1 when it exists and has no truthy cached URL. |
| Queue.PlayNextHeadStartsIssues | src/lib/player.ts:155-157 | When the head starts, `playNext` issues at most one resolution. It issues one exactly when a second item exists with no truthy cached URL, and that resolution is for the second item under its page URL. |
| Queue.PlayNextOnlyLastStarts | src/lib/player.ts:213-217 | A failed start drops its item and advances. Only the last attempt started, and it did exactly when the queue is left playing. |
| Queue.PlayNextPrefetchesOwnItems | src/lib/player.ts:154-163 | Every resolution `playNext` issues is for one of that queue's pending items, under that item's page URL. |
| Queue.PlayNextMembers | src/lib/player.ts:149-151 | `playNext` never adds items: everything in the queue afterwards was pending before. |
| Queue.SetCached | src/lib/player.ts:121-123 | Writing through a captured item object changes that object only, wherever it sits. |
| Player.GetQueue | src/lib/player.ts:46-48 | Returns the registered queue, or null exactly when the guild has none. |
| Player.EnsureQueue | src/lib/player.ts:69-98 | A new queue is registered only when the connection is ready and the subscription succeeds. An existing queue is kept. A timeout or a failed subscription registers nothing and rejects with its error. |
| Player.EnqueuePrefetch | src/lib/player.ts:118-127 | `play` starts a resolution only when the queue is playing and the new item is the only pending item, and it captures that item. |
| Player.Enqueue | src/lib/player.ts:108-129 | `play` always succeeds once the guild has a queue. The reply carries the track's title and formatted duration, and it is "Now playing" exactly when the queue was not playing. The new item object takes the next identity. The guild keeps its queue object, other guilds keep their queues, and no resolution in flight is cancelled. |
| Player.EnqueueIdle | src/lib/player.ts:112-116 | On a queue that is not playing, the reply is "Now playing", the new item object is recorded, and nothing is cancelled. |
| Player.EnqueueBusy | src/lib/player.ts:118-129 | On a playing queue, the reply is "Added to queue" with the track's title and duration, and nothing is cancelled. |
| Player.EnqueueWhilePlaying | src/lib/player.ts:108-129 | On a playing queue, the item is appended at the tail and every earlier pending item keeps its place. The reply's 1-based position equals the new pending count. The current item plays on, and a resolution starts for the new item only when it is the sole pending one. |
| Player.Attach | src/lib/player.ts:67-129 | A rejection leaves the world unchanged. Success comes exactly when the guild had a queue or the connection came up. A new queue is a new object and leaves other guilds alone. "Now playing" is returned exactly when the guild had no queue or its queue was not playing. No identity is handed out twice, and nothing in flight is cancelled. |
| Player.Play | src/lib/player.ts:54-134 | A failed lookup rejects and changes nothing. Otherwise `play` attaches and enqueues, and it succeeds exactly when the lookup succeeds and a queue exists or can be registered. |
| Player.Step | src/lib/player.ts:98-104 | One event: `destroyPlayer` empties the registry, a player error does nothing in the corrected handlers, and Idle and error keep the set of guilds. No event reuses an identity, and only a completion removes a resolution from the in-flight list, removing exactly that one. |
| Player.Run | src/lib/player.ts:155-162 | Over any run, identities are never reused. Without completion events, every resolution in flight stays in flight, in its place. |
| Player.AdvanceGuild | src/lib/player.ts:136-163 | Advancing replaces only that guild's queue. Resolutions it starts are appended and none are cancelled. |
| Player.OnIdle | src/lib/player.ts:100 | The Idle listener advances the guild's queue. Without a queue it does nothing. |
| Player.OnPlayerError | src/lib/player.ts:101-104 | As written, the error listener advances the queue just as Idle does. Corrected, it does nothing. |
| Player.WriteBack | src/lib/player.ts:121-123 | A captured write-back caches the URL on the fetched item wherever it is. As written, `playNext`'s write-back writes whatever is at the head of the pending list. |
| Player.PrefetchDone | src/lib/player.ts:155-162 | The completed resolution leaves the in-flight list. A truthy URL is written only into the queue object it captured, if that object is still registered. Nothing else changes. |
| Player.Skip | src/lib/player.ts:220-226 | `skip` returns true exactly when the guild has a queue that is playing. |
| Player.Pause | src/lib/player.ts:228-233 | `pause` returns false without a queue or while not playing. Otherwise it returns the player's answer. |
| Player.Resume | src/lib/player.ts:235-240 | `resume` returns false only without a queue. Otherwise it returns the player's answer, even when not playing. |
| Player.DestroyPlayer | src/lib/player.ts:242-248 | The registry is left empty and nothing else changes, so a second call changes nothing. |
| PlayerProofs.RunKeepsInv | src/lib/player.ts:136-151 | In every run, at every transition boundary, each queue is playing exactly when it has a current item, and has nothing pending while not playing. Its items and in-flight resolutions refer to known item objects. |
| PlayerProofs.StepKeepsInv | src/lib/player.ts:100-104 | Every event keeps the registry invariant, in both variants. |
| PlayerProofs.PlayKeepsInv | src/lib/player.ts:54-134 | `play` keeps the invariant, whatever the lookup and the connection do. |
| PlayerProofs.PrefetchDoneKeepsInv | src/lib/player.ts:155-162 | A completed resolution keeps the invariant. |
| PlayerProofs.EnqueueWhileIdleAdvances | src/lib/player.ts:108-116 | In every reachable state, `play` on a stopped queue leaves nothing pending and starts no resolution. The queue plays the new item exactly when its start succeeds, and is otherwise stopped with no current item. |
| PlayerProofs.ResolvedKeepsOrder | src/lib/player.ts:155-162 | FIFO under prefetch: a completion never reorders, adds or removes items. It never changes the current item or the playing state. Only cached URLs change. |
| PlayerProofs.CapturedWriteBackHitsFetchedItem | src/lib/player.ts:118-127 | A captured write-back gives the URL only to the item it was resolved for, whose page URL is the one resolved. |
| PlayerProofs.RunKeepsQueuesSince | src/lib/player.ts:88-98 | Once every registered queue object is at least as new as some identity, every run keeps it so: a new queue takes the next identity, and no transition gives a queue another. |
| PlayerProofs.StaleResolutionIgnored | src/lib/player.ts:242-248 | After `destroyPlayer`, whatever events follow, the completion of a resolution started before it writes into no queue, even one registered afterwards for the same guild. |
| PlayerProofs.SkipNeedsCurrentItem | src/lib/player.ts:220-226 | In every reachable state, `skip` succeeds exactly when the guild has a current item. |
| PlayerProofs.SkipThenIdleAdvances | src/lib/player.ts:220-226 | A skip followed by the Idle event its stop produces moves the queue on once. If the next item starts, it becomes current and the rest stays pending. With nothing pending, playback stops. |
| PlayerProofs.PauseGuardStrictest | src/lib/player.ts:228-240 | A successful `pause` implies `skip` and `resume` would succeed. Whenever `skip` would succeed, `pause` returns the player's answer. |
| PlayerProofs.PrefetchLandsOnWrongItem | src/lib/player.ts:155-162 | As written, a concrete run caches the URL resolved for track c on track d. |
| PlayerProofs.CorrectedPrefetchLandsOnItsItem | src/lib/player.ts:155-162 | With a captured write-back, the same run caches that URL on c. |
| PlayerProofs.ErrorThenIdleSkipsAnItem | src/lib/player.ts:100-104 | As written, one failure (error, then Idle) advances twice, and the next pending item is skipped. |
| PlayerProofs.CorrectedRunIgnoresErrors | src/lib/player.ts:100-104 | With the error listener corrected, every run ends where the same run without its error events ends. A failure therefore advances the queue only through the Idle event that follows it. |

## Left out

- Process spawning and piping are left out because they are I/O. This covers yt-dlp, ffmpeg, their argument lists, and stderr collection. Each process appears only as its outcome.
- Duration.FormatDuration: only whole, non-negative seconds are modelled. `Math.floor` of fractional or negative input is floating point.
- `JSON.parse` is an input. In it, `title`, `uploader`, `thumbnail`, `webpage_url` and `url` are each a string or absent, and `duration` is a whole number of seconds or absent. Ytdlp.InfoFromJson: non-string truthy values (a number title, say) are not modelled.
- discord.js and @discordjs/voice calls become booleans and events: joining, `entersState`, `createAudioResource`, `player.play`/`stop`/`pause`/`unpause`, and text-channel sends. Reply strings keep their title and duration, not their emoji text.
- `setVolume(0.5)` is floating point and is left out. The queue's `volume` field is kept.
- The audio format mismatch is not modelled: ffmpeg is asked for `s16le` while the resource declares Ogg Opus.
- `playNext` is modelled as one atomic step, including its awaits. Events cannot interleave inside a single `playNext`, nor inside the voice-connection wait of `play`, so two concurrent first `play` calls for one guild are not modelled.
- When `play` fails after joining the voice channel, the connection it leaks is not tracked. The connection and the text channel are external.
- UrlCache.GetDirectOpusUrl: a lookup is one atomic step, from the cache read to the fill in the `close` handler. In the source the fill comes after an await, so other lookups can interleave. Two concurrent lookups for one id that both miss each run an extraction, and the later fill overwrites the earlier one. The model does not show that.
- The direct URL that `playNext` obtains is an input of each start. It is not drawn from `UrlCache`, whose behaviour is modelled on its own.
- Skip: the stop is not a state change. The Idle event it produces is a separate `SinkIdle` event.
- JavaScript strings are UTF-16 code units, but the model's strings are sequences of characters. `trim` and the video-id scan agree on ASCII URLs.
- The command handlers, event wiring, reply formatting, permissions, configuration, logging and start-up scripts are left out. They are user interface or plumbing around the core.

## Findings

| source | as written | input that shows it | evidently intended | confidence | as-written member | corrected member |
|---|---|---|---|---|---|---|
| src/lib/player.ts:155-162 | The prefetch `playNext` starts writes the resolved URL into `queue.items[0]` at completion time. By then that may be a different item. | Play a, b, c; Idle; play d; Idle. Then the resolution started for c completes, and its URL is cached on d. | The URL is written to the item it was resolved for, as `play` does at lines 121-123. | not executed | PlayerProofs.PrefetchLandsOnWrongItem | PlayerProofs.CorrectedPrefetchLandsOnItsItem |
| src/lib/player.ts:100-104 | Both the Idle listener and the error listener call `playNext`. A player error is followed by an Idle transition, so one failure advances twice. | Queue [x, y, z...] with a current stream. The stream fails: error, then Idle. x becomes current and is replaced by y at once. | One failure advances once. | not executed | PlayerProofs.ErrorThenIdleSkipsAnItem | PlayerProofs.CorrectedRunIgnoresErrors |
