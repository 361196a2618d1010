/** The guild registry of `player.ts` and its transitions: `play`, the sink's Idle and
    error handlers (both call `playNext`), completion of a background direct-URL
    resolution, `skip`, `pause`, `resume`, `destroyPlayer` and `getQueue`. Everything the
    outside world decides — metadata lookup, voice connection, stream creation, the audio
    player's answers, resolved URLs — is a parameter of the transition it affects. */
module Player {
  import opened Basics
  import opened Ytdlp
  import opened Duration
  import opened Queue

  /** The handlers as the repository writes them, or with its two defects corrected: a
      `playNext` prefetch writes to the item it was issued for, and the error handler
      leaves the advance to the Idle event that follows the same failure. */
  datatype Variant = AsWritten | Corrected

  /** The module state: the `guildQueues` registry, the info of every item object created
      so far (item objects are never freed while referenced), the direct-URL resolutions
      still in flight, and a counter that gives each new item and queue object an identity. */
  datatype World = World(
    queues: map<GuildId, GuildQueue>, infos: map<ItemId, VideoInfo>, inFlight: seq<Prefetch>, nextId: nat)

  /** The state at start-up: no queue, nothing in flight. */
  function Initial(): (w: World)
    ensures w.queues == map[] && w.inFlight == [] && w.infos == map[]
  {
    World(map[], map[], [], 0)
  }

  /** `getQueue(guildId)`: the registered queue, or null. */
  function GetQueue(w: World, guild: GuildId): (r: Option<GuildQueue>)
    ensures r.Some? <==> guild in w.queues
    ensures r.Some? ==> r.value == w.queues[guild]
  {
    if guild in w.queues then Some(w.queues[guild]) else None
  }

  // ----- play -----

  /** How joining the voice channel goes: ready and subscribed; `entersState` rejects
      after its 30-second wait; or `subscribe` returns nothing. */
  datatype Connect = Connected | NotReady | NoSubscription

  /** What `play` rejects with. */
  datatype PlayError =
    | InfoFailed(cause: InfoError)
    | ConnectTimeout
    | SubscribeFailed(message: string)

  /** The reply `play` resolves with: "Now playing" or "Added to queue" at a position,
      each with the track's title and formatted duration. */
  datatype Reply =
    | NowPlaying(title: string, duration: string)
    | Queued(title: string, position: nat, duration: string)

  datatype PlayOutcome = PlayOutcome(world: World, reply: Result<Reply, PlayError>)

  /** The `if (!queue)` block of `play`: an existing queue is kept; otherwise a new one is
      registered once the connection is ready and the player subscribed, and nothing is
      registered when either step fails. */
  function EnsureQueue(w: World, guild: GuildId, conn: Connect): (r: Result<World, PlayError>)
    ensures guild in w.queues ==> r == Ok(w)
    ensures guild !in w.queues ==> (r.Ok? <==> conn == Connected)
    ensures guild !in w.queues && conn == NotReady ==> r == Err(ConnectTimeout)
    ensures guild !in w.queues && conn == NoSubscription ==>
      r == Err(SubscribeFailed("Failed to subscribe player to connection"))
    ensures r.Ok? ==> guild in r.value.queues && r.value.infos == w.infos && r.value.inFlight == w.inFlight
    ensures r.Ok? && guild !in w.queues ==>
      && r.value.queues == w.queues[guild := NewQueue(w.nextId)] && r.value.nextId == w.nextId + 1
  {
    if guild in w.queues then Ok(w)
    else match conn
      case Connected =>
        Ok(w.(queues := w.queues[guild := NewQueue(w.nextId)], nextId := w.nextId + 1))
      case NotReady => Err(ConnectTimeout)
      case NoSubscription => Err(SubscribeFailed("Failed to subscribe player to connection"))
  }

  /** The background resolution `play` starts for the item it just queued: only when the
      queue is playing and that item is the only one pending. */
  function EnqueuePrefetch(guild: GuildId, q: GuildQueue, item: QueueItem): (p: seq<Prefetch>)
    ensures |p| <= 1
    ensures |p| == 1 <==> q.isPlaying && |q.items| == 1
    ensures |p| == 1 ==> p[0] == Prefetch(guild, q.token, item.id, item.info.url, Enqueued)
  {
    if q.isPlaying && |q.items| == 1 then [Prefetch(guild, q.token, item.id, item.info.url, Enqueued)] else []
  }

  /** `play` on a queue that is not playing: the new item is pushed and `playNext` runs
      at once. */
  function EnqueueIdle(w: World, guild: GuildId, info: VideoInfo, requestedBy: string,
                       env: ItemId -> StartEnv): (r: PlayOutcome)
    requires guild in w.queues && !w.queues[guild].isPlaying
    ensures r.reply == Ok(NowPlaying(info.title, FormatDuration(info.duration)))
    ensures r.world.nextId == w.nextId + 1 && r.world.infos == w.infos[w.nextId := info]
    ensures r.world.queues.Keys == w.queues.Keys && r.world.queues[guild].token == w.queues[guild].token
    ensures |r.world.inFlight| >= |w.inFlight| && r.world.inFlight[..|w.inFlight|] == w.inFlight
    ensures forall g :: g in w.queues && g != guild ==> r.world.queues[g] == w.queues[g]
  {
    var q := w.queues[guild];
    var pushed := q.(items := q.items + [QueueItem(w.nextId, info, requestedBy, None)]);
    var a := PlayNext(guild, pushed, env);
    PlayOutcome(w.(queues := w.queues[guild := a.queue], infos := w.infos[w.nextId := info],
                   inFlight := w.inFlight + a.issued, nextId := w.nextId + 1),
                Ok(NowPlaying(info.title, FormatDuration(info.duration))))
  }

  /** `play` on a playing queue: the new item is pushed, and a resolution may start. */
  function EnqueueBusy(w: World, guild: GuildId, info: VideoInfo, requestedBy: string): (r: PlayOutcome)
    requires guild in w.queues && w.queues[guild].isPlaying
    ensures r.reply.Ok? && r.reply.value.Queued?
    ensures r.reply.value.title == info.title && r.reply.value.duration == FormatDuration(info.duration)
    ensures r.world.nextId == w.nextId + 1 && r.world.infos == w.infos[w.nextId := info]
    ensures r.world.queues.Keys == w.queues.Keys && r.world.queues[guild].token == w.queues[guild].token
    ensures |r.world.inFlight| >= |w.inFlight| && r.world.inFlight[..|w.inFlight|] == w.inFlight
    ensures forall g :: g in w.queues && g != guild ==> r.world.queues[g] == w.queues[g]
  {
    var q := w.queues[guild];
    var item := QueueItem(w.nextId, info, requestedBy, None);
    var pushed := q.(items := q.items + [item]);
    PlayOutcome(w.(queues := w.queues[guild := pushed], infos := w.infos[item.id := info],
                   inFlight := w.inFlight + EnqueuePrefetch(guild, pushed, item), nextId := w.nextId + 1),
                Ok(Queued(info.title, |pushed.items|, FormatDuration(info.duration))))
  }

  /** The part of `play` after the guild has a queue: push a new item object holding
      `info`, then start playback if the queue was not playing, or report the position and
      maybe start resolving the new item's direct URL. */
  function Enqueue(w: World, guild: GuildId, info: VideoInfo, requestedBy: string,
                   env: ItemId -> StartEnv): (r: PlayOutcome)
    requires guild in w.queues
    ensures r.reply.Ok? && guild in r.world.queues
    ensures r.world.nextId == w.nextId + 1 && r.world.infos == w.infos[w.nextId := info]
    ensures r.world.queues.Keys == w.queues.Keys && r.world.queues[guild].token == w.queues[guild].token
    // resolutions already in flight are never cancelled
    ensures |r.world.inFlight| >= |w.inFlight| && r.world.inFlight[..|w.inFlight|] == w.inFlight
    ensures forall g :: g in w.queues && g != guild ==> r.world.queues[g] == w.queues[g]
    ensures r.reply.value.title == info.title && r.reply.value.duration == FormatDuration(info.duration)
    ensures r.reply.value.NowPlaying? <==> !w.queues[guild].isPlaying
  {
    if !w.queues[guild].isPlaying then EnqueueIdle(w, guild, info, requestedBy, env)
    else EnqueueBusy(w, guild, info, requestedBy)
  }

  /** `play` on a playing queue: the new item goes to the tail and every item pending
      before keeps its place; the reply's position is the new number of pending items,
      counting from 1; the current item plays on; and a resolution is started for the new
      item only when it is the sole pending one. */
  lemma EnqueueWhilePlaying(w: World, guild: GuildId, info: VideoInfo, requestedBy: string,
                            env: ItemId -> StartEnv)
    requires guild in w.queues && w.queues[guild].isPlaying
    ensures var r := Enqueue(w, guild, info, requestedBy, env);
      && var q := w.queues[guild];
      && var q' := r.world.queues[guild];
      && |q'.items| == |q.items| + 1 && q'.items[..|q.items|] == q.items
      && q'.items[|q.items|] == QueueItem(w.nextId, info, requestedBy, None)
      && r.reply == Ok(Queued(info.title, |q'.items|, FormatDuration(info.duration)))
      && q'.currentItem == q.currentItem && q'.isPlaying && q'.volume == q.volume
      && r.world.inFlight == w.inFlight + EnqueuePrefetch(guild, q', q'.items[|q.items|])
  {
    var q := w.queues[guild];
    assert (q.items + [QueueItem(w.nextId, info, requestedBy, None)])[..|q.items|] == q.items;
  }

  /** The part of `play` after the lookup: make sure the guild has a queue, then enqueue. */
  function Attach(w: World, guild: GuildId, info: VideoInfo, requestedBy: string, conn: Connect,
                  env: ItemId -> StartEnv): (r: PlayOutcome)
    // a rejection leaves every queue and every item as it was
    ensures r.reply.Err? ==> r.world == w
    ensures r.reply.Ok? <==> guild in w.queues || conn == Connected
    ensures r.reply.Ok? ==> guild in r.world.queues && r.reply.value.title == info.title
    // "Now playing" exactly when the guild had no queue or its queue was not playing
    ensures r.reply.Ok? ==>
      (r.reply.value.NowPlaying? <==> guild !in w.queues || !w.queues[guild].isPlaying)
    // a new queue is a new object, and no other guild's queue changes
    ensures r.reply.Ok? && guild !in w.queues ==>
      && r.world.queues[guild].token == w.nextId && r.world.queues.Keys == w.queues.Keys + {guild}
      && forall g :: g in w.queues ==> r.world.queues[g] == w.queues[g]
    ensures r.reply.Ok? && guild in w.queues ==> r == Enqueue(w, guild, info, requestedBy, env)
    ensures |r.world.inFlight| >= |w.inFlight| && r.world.inFlight[..|w.inFlight|] == w.inFlight
    // identities already handed out are never handed out again
    ensures r.world.nextId >= w.nextId
  {
    match EnsureQueue(w, guild, conn)
    case Err(e) => PlayOutcome(w, Err(e))
    case Ok(w1) =>
      if guild !in w.queues then EnqueueOnNewQueue(w, w1, guild, info, requestedBy, env); Enqueue(w1, guild, info, requestedBy, env)
      else Enqueue(w1, guild, info, requestedBy, env)
  }

  /** Enqueueing onto the queue just registered for a new guild keeps every other guild's
      queue and the new queue's identity, and always starts playback. */
  lemma EnqueueOnNewQueue(w: World, w1: World, guild: GuildId, info: VideoInfo, requestedBy: string,
                          env: ItemId -> StartEnv)
    requires guild !in w.queues
    requires w1.queues == w.queues[guild := NewQueue(w.nextId)] && w1.nextId == w.nextId + 1
    ensures var r := Enqueue(w1, guild, info, requestedBy, env);
      && r.reply.value.NowPlaying?
      && r.world.queues[guild].token == w.nextId && r.world.queues.Keys == w.queues.Keys + {guild}
      && forall g :: g in w.queues ==> r.world.queues[g] == w.queues[g]
  {
    assert !w1.queues[guild].isPlaying && w1.queues[guild].token == w.nextId;
    assert w1.queues.Keys == w.queues.Keys + {guild};
    assert forall g :: g in w.queues ==> g != guild && w1.queues[g] == w.queues[g];
  }

  /** `play(voiceChannel, textChannel, query, requestedBy)`: look the query up, then attach
      and enqueue. `run` is how the metadata process ends, `conn` how the voice connection
      goes, and `env` what happens when items are started. */
  function Play(w: World, guild: GuildId, query: string, requestedBy: string, run: InfoRun,
                conn: Connect, env: ItemId -> StartEnv): (r: PlayOutcome)
    ensures GetYtdlpInfo(query, run).Err? ==> r == PlayOutcome(w, Err(InfoFailed(GetYtdlpInfo(query, run).error)))
    ensures GetYtdlpInfo(query, run).Ok? ==> r == Attach(w, guild, GetYtdlpInfo(query, run).value, requestedBy, conn, env)
    ensures r.reply.Ok? <==> GetYtdlpInfo(query, run).Ok? && (guild in w.queues || conn == Connected)
    ensures r.world.nextId >= w.nextId
    ensures |r.world.inFlight| >= |w.inFlight| && r.world.inFlight[..|w.inFlight|] == w.inFlight
  {
    match GetYtdlpInfo(query, run)
    case Err(e) => PlayOutcome(w, Err(InfoFailed(e)))
    case Ok(info) => Attach(w, guild, info, requestedBy, conn, env)
  }

  // ----- sink events -----

  /** `playNext(guildId)` against the registry: the guild's queue advances and the
      resolutions it starts join those in flight. */
  function AdvanceGuild(w: World, guild: GuildId, env: ItemId -> StartEnv): (r: World)
    requires guild in w.queues
    ensures guild in r.queues && r.infos == w.infos && r.nextId == w.nextId
    ensures r.queues == w.queues[guild := PlayNext(guild, w.queues[guild], env).queue]
    ensures |r.inFlight| >= |w.inFlight| && r.inFlight[..|w.inFlight|] == w.inFlight
    ensures r.inFlight[|w.inFlight|..] == PlayNext(guild, w.queues[guild], env).issued
  {
    var a := PlayNext(guild, w.queues[guild], env);
    w.(queues := w.queues[guild := a.queue], inFlight := w.inFlight + a.issued)
  }

  /** The Idle listener: `playNext(guildId)`, which returns at once when the guild has no
      queue (the player of a destroyed queue still reports Idle when it is stopped). */
  function OnIdle(w: World, guild: GuildId, env: ItemId -> StartEnv): (r: World)
    ensures guild !in w.queues ==> r == w
    ensures guild in w.queues ==> r == AdvanceGuild(w, guild, env)
  {
    if guild in w.queues then AdvanceGuild(w, guild, env) else w
  }

  /** The error listener. As written it calls `playNext` like the Idle listener does;
      corrected, it leaves the advance to the Idle event the audio player delivers after
      the error. */
  function OnPlayerError(w: World, guild: GuildId, env: ItemId -> StartEnv, variant: Variant): (r: World)
    ensures variant == Corrected ==> r == w
    ensures variant == AsWritten ==> r == OnIdle(w, guild, env)
  {
    match variant
    case AsWritten => OnIdle(w, guild, env)
    case Corrected => w
  }

  // ----- prefetch completion -----

  /** The write-back of a completed resolution into the queue it was issued on. The
      `play` callback and the corrected `playNext` callback write to the item object they
      captured, wherever it now is; the `playNext` callback as written writes to whatever
      item is at the head of the pending list when it runs, and throws (caught and
      ignored) when that list is empty. */
  function WriteBack(q: GuildQueue, t: Prefetch, u: string, variant: Variant): (r: GuildQueue)
    ensures r.token == q.token && r.volume == q.volume && r.isPlaying == q.isPlaying
    ensures |r.items| == |q.items| && r.currentItem.Some? == q.currentItem.Some?
    ensures t.origin == Enqueued || variant == Corrected ==>
      && r.items == SetCached(q.items, t.forItem, u)
      && r.currentItem == (if q.currentItem.Some? && q.currentItem.value.id == t.forItem
                           then Some(q.currentItem.value.(cachedUrl := Some(u))) else q.currentItem)
    ensures t.origin == Advanced && variant == AsWritten ==>
      && r.currentItem == q.currentItem
      && r.items == (if |q.items| > 0 then q.items[0 := q.items[0].(cachedUrl := Some(u))] else q.items)
  {
    if t.origin == Advanced && variant == AsWritten then
      if |q.items| > 0 then q.(items := q.items[0 := q.items[0].(cachedUrl := Some(u))]) else q
    else
      var current := if q.currentItem.Some? && q.currentItem.value.id == t.forItem
                     then Some(q.currentItem.value.(cachedUrl := Some(u))) else q.currentItem;
      q.(items := SetCached(q.items, t.forItem, u), currentItem := current)
  }

  /** The `.then` callback of resolution `k`, which resolved with `url`: the resolution leaves the
      in-flight list, and a truthy URL is written back when the queue object it captured
      is still the guild's registered queue (a queue that was destroyed is unreachable). */
  function PrefetchDone(w: World, k: nat, url: Option<string>, variant: Variant): (r: World)
    requires k < |w.inFlight|
    ensures r.inFlight == w.inFlight[..k] + w.inFlight[k + 1..]
    ensures r.infos == w.infos && r.nextId == w.nextId && r.queues.Keys == w.queues.Keys
    ensures var t := w.inFlight[k];
      forall g :: g in w.queues && (g != t.guild || w.queues[g].token != t.queueToken || !Truthy(url)) ==>
        r.queues[g] == w.queues[g]
    ensures var t := w.inFlight[k];
      t.guild in w.queues && w.queues[t.guild].token == t.queueToken && Truthy(url) ==>
        r.queues[t.guild] == WriteBack(w.queues[t.guild], t, url.value, variant)
  {
    var t := w.inFlight[k];
    var rest := w.inFlight[..k] + w.inFlight[k + 1..];
    if t.guild in w.queues && w.queues[t.guild].token == t.queueToken && Truthy(url) then
      w.(queues := w.queues[t.guild := WriteBack(w.queues[t.guild], t, url.value, variant)], inFlight := rest)
    else
      w.(inFlight := rest)
  }

  // ----- commands -----

  /** `skip(guildId)`: true exactly when a stop was requested, which needs a queue that is
      playing. The registry does not change; the Idle event the stop produces is a
      separate transition. */
  function Skip(w: World, guild: GuildId): (stopped: bool)
    ensures stopped <==> GetQueue(w, guild).Some? && GetQueue(w, guild).value.isPlaying
  {
    guild in w.queues && w.queues[guild].isPlaying
  }

  /** `pause(guildId)`: false without a queue or while not playing; otherwise what
      `player.pause()` answers (`sinkOk`). */
  function Pause(w: World, guild: GuildId, sinkOk: bool): (paused: bool)
    ensures GetQueue(w, guild).None? ==> !paused
    ensures GetQueue(w, guild).Some? && !GetQueue(w, guild).value.isPlaying ==> !paused
    ensures GetQueue(w, guild).Some? && GetQueue(w, guild).value.isPlaying ==> paused == sinkOk
  {
    if guild !in w.queues || !w.queues[guild].isPlaying then false else sinkOk
  }

  /** `resume(guildId)`: false only without a queue — a queue that is not playing still
      asks the player — otherwise what `player.unpause()` answers (`sinkOk`). */
  function Resume(w: World, guild: GuildId, sinkOk: bool): (resumed: bool)
    ensures GetQueue(w, guild).None? ==> !resumed
    ensures GetQueue(w, guild).Some? ==> resumed == sinkOk
  {
    if guild !in w.queues then false else sinkOk
  }

  /** `destroyPlayer()`: every player is stopped and every connection destroyed (outside
      the model), then the registry is cleared. Resolutions in flight keep running, but the
      queues they captured are no longer reachable. */
  function DestroyPlayer(w: World): (r: World)
    ensures r.queues == map[]
    ensures r.inFlight == w.inFlight && r.infos == w.infos && r.nextId == w.nextId
  {
    w.(queues := map[])
  }

  // ----- runs -----

  /** The events that change the registry. A skip is not one: the Idle event its stop
      produces is. A `PrefetchDone` names a resolution by its place in the in-flight list. */
  datatype Event =
    | PlayCommand(guild: GuildId, query: string, requestedBy: string, run: InfoRun, conn: Connect)
    | SinkIdle(guild: GuildId)
    | SinkError(guild: GuildId)
    | Resolved(k: nat, url: Option<string>)
    | Destroy

  /** One event. A completion that names no resolution in flight changes nothing. */
  function Step(w: World, e: Event, env: ItemId -> StartEnv, variant: Variant): (r: World)
    ensures e.Destroy? ==> r.queues == map[]
    ensures e.Resolved? && e.k >= |w.inFlight| ==> r == w
    ensures e.SinkError? && variant == Corrected ==> r == w
    ensures e.SinkIdle? || e.SinkError? ==> r.queues.Keys == w.queues.Keys
    // item and queue identities are never reused
    ensures r.nextId >= w.nextId
    // a resolution leaves the in-flight list only by completing
    ensures !e.Resolved? ==> |r.inFlight| >= |w.inFlight| && r.inFlight[..|w.inFlight|] == w.inFlight
    ensures e.Resolved? && e.k < |w.inFlight| ==> r.inFlight == w.inFlight[..e.k] + w.inFlight[e.k + 1..]
  {
    match e
    case PlayCommand(g, query, who, run, conn) => Play(w, g, query, who, run, conn, env).world
    case SinkIdle(g) => OnIdle(w, g, env)
    case SinkError(g) => OnPlayerError(w, g, env, variant)
    case Resolved(k, url) => if k < |w.inFlight| then PrefetchDone(w, k, url, variant) else w
    case Destroy => DestroyPlayer(w)
  }

  /** No event of `events` is a completion. */
  predicate NoCompletion(events: seq<Event>) {
    forall i :: 0 <= i < |events| ==> !events[i].Resolved?
  }

  /** A sequence of events from `w`, in order. */
  function Run(w: World, events: seq<Event>, env: ItemId -> StartEnv, variant: Variant): (r: World)
    ensures r.nextId >= w.nextId
    // without completions, every resolution in flight is still in flight, in its place
    ensures NoCompletion(events) ==> |r.inFlight| >= |w.inFlight| && r.inFlight[..|w.inFlight|] == w.inFlight
    decreases |events|
  {
    if events == [] then w
    else
      var w1 := Step(w, events[0], env, variant);
      var r := Run(w1, events[1..], env, variant);
      assert NoCompletion(events) ==> NoCompletion(events[1..]) && !events[0].Resolved? by {
        if NoCompletion(events) {
          assert !events[0].Resolved?;
          forall i | 0 <= i < |events[1..]| ensures !events[1..][i].Resolved? { assert events[1..][i] == events[i + 1]; }
        }
      }
      assert NoCompletion(events) ==> r.inFlight[..|w.inFlight|] == w.inFlight by {
        if NoCompletion(events) {
          assert r.inFlight[..|w.inFlight|] == r.inFlight[..|w1.inFlight|][..|w.inFlight|];
        }
      }
      r
  }
}
