/** Properties of the registry model: the invariant every transition keeps, FIFO order
    under prefetch completion, the guards, and the two defects of the handlers as written
    next to their corrected versions. */
module PlayerProofs {
  import opened Basics
  import opened Ytdlp
  import opened Queue
  import opened Player

  // ----- the invariant -----

  /** Item `x` is the object `infos` records under its id. */
  predicate Known(infos: map<ItemId, VideoInfo>, x: QueueItem) {
    x.id in infos && infos[x.id] == x.info
  }

  /** Every item a queue holds, pending or current, is a known object. */
  predicate ItemsKnown(infos: map<ItemId, VideoInfo>, q: GuildQueue) {
    && (forall i :: 0 <= i < |q.items| ==> Known(infos, q.items[i]))
    && (q.currentItem.Some? ==> Known(infos, q.currentItem.value))
  }

  /** A registered queue: consistent, at the default volume, with an identity and items
      that were handed out already. */
  predicate QueueOk(w: World, q: GuildQueue) {
    Consistent(q) && q.volume == DefaultVolume && q.token < w.nextId && ItemsKnown(w.infos, q)
  }

  /** A resolution in flight was started for a known item, under that item's page URL, by
      a queue object that was handed out already. */
  predicate TaskOk(w: World, t: Prefetch) {
    t.forItem in w.infos && w.infos[t.forItem].url == t.pageUrl && t.queueToken < w.nextId
  }

  predicate Inv(w: World) {
    && (forall g :: g in w.queues ==> QueueOk(w, w.queues[g]))
    && (forall id :: id in w.infos ==> id < w.nextId)
    && (forall i :: 0 <= i < |w.inFlight| ==> TaskOk(w, w.inFlight[i]))
  }

  lemma InitialInv()
    ensures Inv(Initial())
  {
  }

  /** `w2` knows at least what `w1` knows. */
  predicate Grows(w1: World, w2: World) {
    && w1.nextId <= w2.nextId
    && (forall id :: id in w1.infos ==> id in w2.infos && w2.infos[id] == w1.infos[id])
  }

  lemma {:induction false} KnownGrows(w1: World, w2: World, q: GuildQueue)
    requires Grows(w1, w2) && QueueOk(w1, q)
    ensures QueueOk(w2, q)
  {
    assert forall i :: 0 <= i < |q.items| ==> Known(w1.infos, q.items[i]) ==> Known(w2.infos, q.items[i]);
  }

  /** `playNext` keeps every queue property except consistency, which it establishes. */
  lemma {:induction false} PlayNextKeepsQueueOk(w: World, guild: GuildId, q: GuildQueue, env: ItemId -> StartEnv)
    requires q.volume == DefaultVolume && q.token < w.nextId && ItemsKnown(w.infos, q)
    ensures QueueOk(w, PlayNext(guild, q, env).queue)
    ensures forall p :: p in PlayNext(guild, q, env).issued ==> TaskOk(w, p)
  {
    var r := PlayNext(guild, q, env);
    PlayNextCurrentIsNextInLine(guild, q, env);
    DrawnItemsKnown(w.infos, q.items, r.queue, |r.attempts|);
    PlayNextIssuesKnownTasks(w, guild, q, env);
  }

  /** A queue drawn from known items, as `playNext` leaves it, holds only known items. */
  lemma DrawnItemsKnown(infos: map<ItemId, VideoInfo>, items: seq<QueueItem>, r: GuildQueue, n: nat)
    requires forall i :: 0 <= i < |items| ==> Known(infos, items[i])
    requires |r.items| <= |items| && r.items == items[|items| - |r.items|..]
    requires r.currentItem.Some? ==> 1 <= n <= |items| && r.currentItem == Some(items[n - 1])
    ensures ItemsKnown(infos, r)
  {
    var k := |items| - |r.items|;
    forall i | 0 <= i < |r.items| ensures Known(infos, r.items[i]) {
      assert r.items[i] == items[k + i];
    }
  }

  /** The resolutions `playNext` starts are for known items, under their page URLs. */
  lemma {:induction false} PlayNextIssuesKnownTasks(w: World, guild: GuildId, q: GuildQueue, env: ItemId -> StartEnv)
    requires q.token < w.nextId && ItemsKnown(w.infos, q)
    ensures forall p :: p in PlayNext(guild, q, env).issued ==> TaskOk(w, p)
  {
    var r := PlayNext(guild, q, env);
    PlayNextPrefetchesOwnItems(guild, q, env);
    forall p | p in r.issued ensures TaskOk(w, p) {
      assert IssuedFor(guild, q, p);
      var x :| x in q.items && x.id == p.forItem && x.info.url == p.pageUrl;
      var i :| 0 <= i < |q.items| && q.items[i] == x;
      assert Known(w.infos, q.items[i]);
    }
  }

  /** The shape of every transition that touches one guild: it may learn new items,
      replace that guild's queue by a good one and start good resolutions. */
  lemma {:induction false} UpdateKeepsInv(w: World, r: World, guild: GuildId, extra: seq<Prefetch>)
    requires Inv(w) && Grows(w, r) && (forall id :: id in r.infos ==> id < r.nextId)
    requires guild in r.queues && r.queues == w.queues[guild := r.queues[guild]] && QueueOk(r, r.queues[guild])
    requires r.inFlight == w.inFlight + extra && forall p :: p in extra ==> TaskOk(r, p)
    ensures Inv(r)
  {
    forall g | g in r.queues ensures QueueOk(r, r.queues[g]) {
      if g != guild { KnownGrows(w, r, w.queues[g]); }
    }
    forall i | 0 <= i < |r.inFlight| ensures TaskOk(r, r.inFlight[i]) {
      if i >= |w.inFlight| { assert r.inFlight[i] in extra; }
    }
  }

  /** The item `Enqueue` pushes and the queue it pushes it onto. */
  lemma {:induction false} PushKeepsKnown(w: World, guild: GuildId, info: VideoInfo, requestedBy: string)
    requires Inv(w) && guild in w.queues
    ensures var q := w.queues[guild];
      var w1 := w.(infos := w.infos[w.nextId := info], nextId := w.nextId + 1);
      && Grows(w, w1)
      && ItemsKnown(w1.infos, q.(items := q.items + [QueueItem(w.nextId, info, requestedBy, None)]))
  {
    var q := w.queues[guild];
    var item := QueueItem(w.nextId, info, requestedBy, None);
    var pushed := q.(items := q.items + [item]);
    var w1 := w.(infos := w.infos[item.id := info], nextId := w.nextId + 1);
    assert w.nextId !in w.infos;
    KnownGrows(w, w1, q);
    forall i | 0 <= i < |pushed.items| ensures Known(w1.infos, pushed.items[i]) {
      if i < |q.items| { assert pushed.items[i] == q.items[i]; }
    }
  }

  /** `Enqueue` keeps the invariant. */
  lemma {:induction false} EnqueueKeepsInv(w: World, guild: GuildId, info: VideoInfo, requestedBy: string,
                                           env: ItemId -> StartEnv)
    requires Inv(w) && guild in w.queues
    ensures Inv(Enqueue(w, guild, info, requestedBy, env).world)
  {
    PushKeepsKnown(w, guild, info, requestedBy);
    if w.queues[guild].isPlaying {
      EnqueueWhilePlayingKeepsInv(w, guild, info, requestedBy, env);
    } else {
      EnqueueWhileIdleKeepsInv(w, guild, info, requestedBy, env);
    }
  }

  lemma {:induction false} EnqueueWhilePlayingKeepsInv(w: World, guild: GuildId, info: VideoInfo, requestedBy: string,
                                                       env: ItemId -> StartEnv)
    requires Inv(w) && guild in w.queues && w.queues[guild].isPlaying
    requires var q := w.queues[guild];
      var w1 := w.(infos := w.infos[w.nextId := info], nextId := w.nextId + 1);
      && Grows(w, w1)
      && ItemsKnown(w1.infos, q.(items := q.items + [QueueItem(w.nextId, info, requestedBy, None)]))
    ensures Inv(Enqueue(w, guild, info, requestedBy, env).world)
  {
    EnqueueWhilePlayingPushes(w, guild, info, requestedBy, env);
    PushedKeepsInv(w, guild, info, requestedBy);
  }

  /** Pushing a new item onto a playing queue, and perhaps starting its resolution, keeps
      the invariant. */
  lemma {:induction false} PushedKeepsInv(w: World, guild: GuildId, info: VideoInfo, requestedBy: string)
    requires Inv(w) && guild in w.queues && w.queues[guild].isPlaying
    requires var q := w.queues[guild];
      var w1 := w.(infos := w.infos[w.nextId := info], nextId := w.nextId + 1);
      && Grows(w, w1)
      && ItemsKnown(w1.infos, q.(items := q.items + [QueueItem(w.nextId, info, requestedBy, None)]))
    ensures Inv(Pushed(w, guild, info, requestedBy))
  {
    var r := Pushed(w, guild, info, requestedBy);
    var q := w.queues[guild];
    var item := QueueItem(w.nextId, info, requestedBy, None);
    var pushed := q.(items := q.items + [item]);
    UpdateKeepsInv(w, r, guild, EnqueuePrefetch(guild, pushed, item));
  }

  lemma {:induction false} EnqueueWhileIdleKeepsInv(w: World, guild: GuildId, info: VideoInfo, requestedBy: string,
                                                    env: ItemId -> StartEnv)
    requires Inv(w) && guild in w.queues && !w.queues[guild].isPlaying
    requires var q := w.queues[guild];
      var w1 := w.(infos := w.infos[w.nextId := info], nextId := w.nextId + 1);
      && Grows(w, w1)
      && ItemsKnown(w1.infos, q.(items := q.items + [QueueItem(w.nextId, info, requestedBy, None)]))
    ensures Inv(Enqueue(w, guild, info, requestedBy, env).world)
  {
    var q := w.queues[guild];
    EnqueueIdleUnfolds(w, guild, info, requestedBy, env);
    PushedAdvanceKeepsInv(w, guild, q.(items := q.items + [QueueItem(w.nextId, info, requestedBy, None)]), info, env);
  }

  lemma {:induction false} PushedAdvanceKeepsInv(w: World, guild: GuildId, pushed: GuildQueue, info: VideoInfo,
                                                 env: ItemId -> StartEnv)
    requires Inv(w) && guild in w.queues
    requires pushed.volume == DefaultVolume && pushed.token < w.nextId
    requires var w1 := w.(infos := w.infos[w.nextId := info], nextId := w.nextId + 1);
      Grows(w, w1) && ItemsKnown(w1.infos, pushed)
    ensures var a := PlayNext(guild, pushed, env);
      Inv(w.(queues := w.queues[guild := a.queue], infos := w.infos[w.nextId := info], nextId := w.nextId + 1,
             inFlight := w.inFlight + a.issued))
  {
    var w1 := w.(infos := w.infos[w.nextId := info], nextId := w.nextId + 1);
    var a := PlayNext(guild, pushed, env);
    var r := w1.(queues := w.queues[guild := a.queue], inFlight := w.inFlight + a.issued);
    PlayNextKeepsQueueOk(w1, guild, pushed, env);
    UpdateKeepsInv(w, r, guild, a.issued);
  }

  /** Enqueueing onto a queue that is not playing pushes the item and advances at once. */
  lemma EnqueueIdleUnfolds(w: World, guild: GuildId, info: VideoInfo, requestedBy: string,
                                 env: ItemId -> StartEnv)
    requires guild in w.queues && !w.queues[guild].isPlaying
    ensures var q := w.queues[guild];
      var a := PlayNext(guild, q.(items := q.items + [QueueItem(w.nextId, info, requestedBy, None)]), env);
      Enqueue(w, guild, info, requestedBy, env).world ==
        w.(queues := w.queues[guild := a.queue], infos := w.infos[w.nextId := info], nextId := w.nextId + 1,
           inFlight := w.inFlight + a.issued)
  {
  }

  /** On a stopped queue, `play` starts the new item at once: nothing stays pending, nothing
      is resolved, and the queue plays the new item exactly when its start succeeds. */
  lemma EnqueueWhileIdleAdvances(w: World, guild: GuildId, info: VideoInfo, requestedBy: string,
                                 env: ItemId -> StartEnv)
    requires Inv(w) && guild in w.queues && !w.queues[guild].isPlaying
    ensures var item := QueueItem(w.nextId, info, requestedBy, None);
      var r := Enqueue(w, guild, info, requestedBy, env).world;
      && r.queues[guild].items == [] && r.inFlight == w.inFlight
      && (StartItem(item, env(w.nextId)).started ==>
            r.queues[guild].isPlaying && r.queues[guild].currentItem == Some(item))
      && (!StartItem(item, env(w.nextId)).started ==>
            !r.queues[guild].isPlaying && r.queues[guild].currentItem.None?)
  {
    var q := w.queues[guild];
    var item := QueueItem(w.nextId, info, requestedBy, None);
    assert QueueOk(w, q);
    assert q.items == [];
    var pushed := q.(items := q.items + [item]);
    assert pushed.items == [item];
    EnqueueIdleUnfolds(w, guild, info, requestedBy, env);
    var a := PlayNext(guild, pushed, env);
    PlayNextOnlyLastStarts(guild, pushed, env);
    PlayNextIssuesPerAttempt(guild, pushed, env);
    PlayNextCurrentIsNextInLine(guild, pushed, env);
  }

  /** Enqueueing onto a playing queue pushes the item and may start one resolution. */
  lemma EnqueueWhilePlayingPushes(w: World, guild: GuildId, info: VideoInfo, requestedBy: string,
                                  env: ItemId -> StartEnv)
    requires guild in w.queues && w.queues[guild].isPlaying
    ensures var q := w.queues[guild];
      var item := QueueItem(w.nextId, info, requestedBy, None);
      var pushed := q.(items := q.items + [item]);
      Enqueue(w, guild, info, requestedBy, env).world ==
        w.(queues := w.queues[guild := pushed], infos := w.infos[w.nextId := info], nextId := w.nextId + 1,
           inFlight := w.inFlight + EnqueuePrefetch(guild, pushed, item))
  {
  }

  /** `play` keeps the invariant, whatever the lookup and the connection do. */
  lemma {:induction false} PlayKeepsInv(w: World, guild: GuildId, query: string, requestedBy: string,
                                        run: InfoRun, conn: Connect, env: ItemId -> StartEnv)
    requires Inv(w)
    ensures Inv(Play(w, guild, query, requestedBy, run, conn, env).world)
  {
    var info := GetYtdlpInfo(query, run);
    if info.Ok? {
      var e := EnsureQueue(w, guild, conn);
      if e.Ok? {
        var w1 := e.value;
        assert Grows(w, w1);
        forall g | g in w1.queues ensures QueueOk(w1, w1.queues[g]) {
          if g in w.queues { KnownGrows(w, w1, w.queues[g]); }
        }
        EnqueueKeepsInv(w1, guild, info.value, requestedBy, env);
      }
    }
  }

  /** An advance keeps the invariant. */
  lemma {:induction false} AdvanceKeepsInv(w: World, guild: GuildId, env: ItemId -> StartEnv)
    requires Inv(w) && guild in w.queues
    ensures Inv(AdvanceGuild(w, guild, env))
  {
    PlayNextKeepsQueueOk(w, guild, w.queues[guild], env);
    UpdateKeepsInv(w, AdvanceGuild(w, guild, env), guild, PlayNext(guild, w.queues[guild], env).issued);
  }

  /** A write-back changes nothing but cached URLs: the same items, with the same
      identities and infos, in the same order, and the same playing state. */
  lemma {:induction false} WriteBackKeepsItems(q: GuildQueue, t: Prefetch, u: string, variant: Variant)
    ensures var r := WriteBack(q, t, u, variant);
      && |r.items| == |q.items| && r.isPlaying == q.isPlaying && r.token == q.token && r.volume == q.volume
      && (forall i :: 0 <= i < |q.items| ==> r.items[i] == q.items[i].(cachedUrl := r.items[i].cachedUrl))
      && (r.currentItem.Some? <==> q.currentItem.Some?)
      && (r.currentItem.Some? ==> r.currentItem.value == q.currentItem.value.(cachedUrl := r.currentItem.value.cachedUrl))
  {
  }

  lemma {:induction false} WriteBackKeepsQueueOk(w: World, q: GuildQueue, t: Prefetch, u: string, variant: Variant)
    requires QueueOk(w, q)
    ensures QueueOk(w, WriteBack(q, t, u, variant))
  {
    var r := WriteBack(q, t, u, variant);
    WriteBackKeepsItems(q, t, u, variant);
    forall i | 0 <= i < |r.items| ensures Known(w.infos, r.items[i]) {
      assert Known(w.infos, q.items[i]);
    }
  }

  /** A completed resolution keeps the invariant. */
  lemma {:induction false} PrefetchDoneKeepsInv(w: World, k: nat, url: Option<string>, variant: Variant)
    requires Inv(w) && k < |w.inFlight|
    ensures Inv(PrefetchDone(w, k, url, variant))
  {
    var r := PrefetchDone(w, k, url, variant);
    var t := w.inFlight[k];
    forall g | g in r.queues ensures QueueOk(r, r.queues[g]) {
      if g == t.guild && w.queues[g].token == t.queueToken && Truthy(url) {
        WriteBackKeepsQueueOk(w, w.queues[g], t, url.value, variant);
      }
    }
    forall i | 0 <= i < |r.inFlight| ensures TaskOk(r, r.inFlight[i]) {
      if i < k { assert r.inFlight[i] == w.inFlight[i]; } else { assert r.inFlight[i] == w.inFlight[i + 1]; }
    }
  }

  /** Every transition keeps the invariant, in both variants. */
  lemma {:induction false} StepKeepsInv(w: World, e: Event, env: ItemId -> StartEnv, variant: Variant)
    requires Inv(w)
    ensures Inv(Step(w, e, env, variant))
  {
    match e
    case PlayCommand(g, query, who, run, conn) => PlayKeepsInv(w, g, query, who, run, conn, env);
    case SinkIdle(g) => if g in w.queues { AdvanceKeepsInv(w, g, env); }
    case SinkError(g) => if g in w.queues && variant == AsWritten { AdvanceKeepsInv(w, g, env); }
    case Resolved(k, url) => if k < |w.inFlight| { PrefetchDoneKeepsInv(w, k, url, variant); }
    case Destroy =>
  }

  /** Every run from start-up keeps the invariant: at every transition boundary each
      registered queue is playing exactly when it has a current item and has nothing
      pending while not playing. */
  lemma {:induction false} RunKeepsInv(w: World, events: seq<Event>, env: ItemId -> StartEnv, variant: Variant)
    requires Inv(w)
    ensures Inv(Run(w, events, env, variant))
    ensures forall g :: g in Run(w, events, env, variant).queues ==> Consistent(Run(w, events, env, variant).queues[g])
    decreases |events|
  {
    if events != [] {
      StepKeepsInv(w, events[0], env, variant);
      RunKeepsInv(Step(w, events[0], env, variant), events[1..], env, variant);
    }
  }

  // ----- prefetch completion -----

  /** FIFO under prefetch: whichever resolution completes, and in either variant, every
      queue keeps the same items, with the same identities and infos, in the same order,
      the same current item and the same playing state; only cached URLs change. */
  lemma {:induction false} ResolvedKeepsOrder(w: World, k: nat, url: Option<string>, variant: Variant)
    requires k < |w.inFlight|
    ensures var r := PrefetchDone(w, k, url, variant);
      forall g :: g in w.queues ==>
        && |r.queues[g].items| == |w.queues[g].items|
        && (forall i :: 0 <= i < |w.queues[g].items| ==>
              r.queues[g].items[i].id == w.queues[g].items[i].id && r.queues[g].items[i].info == w.queues[g].items[i].info)
        && r.queues[g].isPlaying == w.queues[g].isPlaying
        && (r.queues[g].currentItem.Some? <==> w.queues[g].currentItem.Some?)
        && (r.queues[g].currentItem.Some? ==> r.queues[g].currentItem.value.id == w.queues[g].currentItem.value.id)
  {
    var t := w.inFlight[k];
    if Truthy(url) && t.guild in w.queues && w.queues[t.guild].token == t.queueToken {
      WriteBackKeepsItems(w.queues[t.guild], t, url.value, variant);
    }
  }

  /** A captured write-back — `play`'s, and in the corrected handlers `playNext`'s too —
      gives the resolved URL only to the item object the resolution was started for, whose
      page URL is the one that was resolved; every other item, pending or current, keeps
      what it had. */
  lemma {:induction false} CapturedWriteBackHitsFetchedItem(w: World, k: nat, url: Option<string>, variant: Variant)
    requires Inv(w) && k < |w.inFlight|
    requires w.inFlight[k].origin == Enqueued || variant == Corrected
    ensures var t := w.inFlight[k];
      var r := PrefetchDone(w, k, url, variant);
      forall g, i :: g in w.queues && 0 <= i < |w.queues[g].items| ==>
        || r.queues[g].items[i] == w.queues[g].items[i]
        || (&& w.queues[g].items[i].id == t.forItem && w.queues[g].items[i].info.url == t.pageUrl
            && r.queues[g].items[i] == w.queues[g].items[i].(cachedUrl := url))
    ensures var t := w.inFlight[k];
      var r := PrefetchDone(w, k, url, variant);
      forall g :: g in w.queues && w.queues[g].currentItem.Some? ==>
        || r.queues[g].currentItem == w.queues[g].currentItem
        || (&& w.queues[g].currentItem.value.id == t.forItem && w.queues[g].currentItem.value.info.url == t.pageUrl
            && r.queues[g].currentItem == Some(w.queues[g].currentItem.value.(cachedUrl := url)))
  {
    var t := w.inFlight[k];
    var r := PrefetchDone(w, k, url, variant);
    assert TaskOk(w, t);
    forall g, i | g in w.queues && 0 <= i < |w.queues[g].items|
      ensures || r.queues[g].items[i] == w.queues[g].items[i]
              || (&& w.queues[g].items[i].id == t.forItem && w.queues[g].items[i].info.url == t.pageUrl
                  && r.queues[g].items[i] == w.queues[g].items[i].(cachedUrl := url))
    {
      assert QueueOk(w, w.queues[g]) && Known(w.infos, w.queues[g].items[i]);
    }
    forall g | g in w.queues && w.queues[g].currentItem.Some?
      ensures || r.queues[g].currentItem == w.queues[g].currentItem
              || (&& w.queues[g].currentItem.value.id == t.forItem && w.queues[g].currentItem.value.info.url == t.pageUrl
                  && r.queues[g].currentItem == Some(w.queues[g].currentItem.value.(cachedUrl := url)))
    {
      assert QueueOk(w, w.queues[g]) && Known(w.infos, w.queues[g].currentItem.value);
    }
  }

  /** Every registered queue object was handed out at or after `base`. */
  predicate QueuesSince(w: World, base: nat) {
    base <= w.nextId && forall g :: g in w.queues ==> w.queues[g].token >= base
  }

  /** `play` registers a new queue only under the next identity, and keeps the identity of
      every queue it finds. */
  lemma PlayKeepsQueuesSince(w: World, guild: GuildId, query: string, who: string, run: InfoRun,
                             conn: Connect, env: ItemId -> StartEnv, base: nat)
    requires QueuesSince(w, base)
    ensures QueuesSince(Play(w, guild, query, who, run, conn, env).world, base)
  {
    var info := GetYtdlpInfo(query, run);
    if info.Ok? {
      AttachKeepsQueuesSince(w, guild, info.value, who, conn, env, base);
    }
  }

  lemma AttachKeepsQueuesSince(w: World, guild: GuildId, info: VideoInfo, who: string, conn: Connect,
                               env: ItemId -> StartEnv, base: nat)
    requires QueuesSince(w, base)
    ensures QueuesSince(Attach(w, guild, info, who, conn, env).world, base)
  {
    if guild in w.queues {
      EnqueueKeepsQueuesSince(w, guild, info, who, env, base);
    }
  }

  lemma EnqueueKeepsQueuesSince(w: World, guild: GuildId, info: VideoInfo, who: string,
                                env: ItemId -> StartEnv, base: nat)
    requires QueuesSince(w, base) && guild in w.queues
    ensures QueuesSince(Enqueue(w, guild, info, who, env).world, base)
  {
    var r := Enqueue(w, guild, info, who, env).world;
    forall h | h in r.queues ensures r.queues[h].token >= base {
      assert h in w.queues;
    }
  }

  /** An advance keeps the identity of every queue. */
  lemma AdvanceKeepsQueuesSince(w: World, guild: GuildId, env: ItemId -> StartEnv, base: nat)
    requires QueuesSince(w, base) && guild in w.queues
    ensures QueuesSince(AdvanceGuild(w, guild, env), base)
  {
  }

  /** Every event keeps the registry to queue objects handed out at or after `base`: a
      new queue takes the next identity, and no transition gives a queue another. */
  lemma {:induction false} StepKeepsQueuesSince(w: World, e: Event, env: ItemId -> StartEnv, variant: Variant, base: nat)
    requires QueuesSince(w, base)
    ensures QueuesSince(Step(w, e, env, variant), base)
  {
    match e
    case PlayCommand(g, query, who, run, conn) => PlayKeepsQueuesSince(w, g, query, who, run, conn, env, base);
    case SinkIdle(g) => if g in w.queues { AdvanceKeepsQueuesSince(w, g, env, base); }
    case SinkError(g) => if g in w.queues && variant == AsWritten { AdvanceKeepsQueuesSince(w, g, env, base); }
    case Resolved(k, url) =>
    case Destroy =>
  }

  lemma {:induction false} RunKeepsQueuesSince(w: World, events: seq<Event>, env: ItemId -> StartEnv, variant: Variant,
                                               base: nat)
    requires QueuesSince(w, base)
    ensures QueuesSince(Run(w, events, env, variant), base)
    decreases |events|
  {
    if events != [] {
      StepKeepsQueuesSince(w, events[0], env, variant, base);
      RunKeepsQueuesSince(Step(w, events[0], env, variant), events[1..], env, variant, base);
    }
  }

  /** A resolution started before `destroyPlayer` never writes into any queue, whatever
      happens afterwards: every queue registered after the reset, even for the same guild,
      is a new object, and the queue object the resolution captured is gone. */
  lemma StaleResolutionIgnored(w: World, events: seq<Event>, env: ItemId -> StartEnv, variant: Variant,
                               k: nat, url: Option<string>)
    requires Inv(w)
    ensures var r := Run(Step(w, Destroy, env, variant), events, env, variant);
      k < |r.inFlight| && r.inFlight[k] in w.inFlight ==> Step(r, Resolved(k, url), env, variant).queues == r.queues
  {
    var d := Step(w, Destroy, env, variant);
    RunKeepsQueuesSince(d, events, env, variant, w.nextId);
    var r := Run(d, events, env, variant);
    if k < |r.inFlight| && r.inFlight[k] in w.inFlight {
      var i :| 0 <= i < |w.inFlight| && w.inFlight[i] == r.inFlight[k];
      assert TaskOk(w, w.inFlight[i]);
      UnmatchedTaskWritesNothing(r, k, url, variant);
    }
  }

  /** A completion whose queue object is registered under no guild changes no queue. */
  lemma UnmatchedTaskWritesNothing(w: World, k: nat, url: Option<string>, variant: Variant)
    requires k < |w.inFlight|
    requires forall g :: g in w.queues ==> w.queues[g].token != w.inFlight[k].queueToken
    ensures PrefetchDone(w, k, url, variant).queues == w.queues
  {
    var r := PrefetchDone(w, k, url, variant);
    assert forall g :: g in w.queues ==> r.queues[g] == w.queues[g];
  }

  // ----- commands -----

  /** In every reachable state `skip` succeeds exactly when the guild has a track
      playing: its guard on `isPlaying` is a guard on the current item. */
  lemma SkipNeedsCurrentItem(w: World, guild: GuildId)
    requires Inv(w)
    ensures Skip(w, guild) <==> guild in w.queues && w.queues[guild].currentItem.Some?
  {
    if guild in w.queues {
      assert QueueOk(w, w.queues[guild]);
    }
  }

  /** A skip followed by the Idle event its stop produces advances the queue once: the
      next pending item whose start succeeds becomes current, and an empty queue stops. */
  lemma SkipThenIdleAdvances(w: World, guild: GuildId, env: ItemId -> StartEnv, variant: Variant)
    requires Skip(w, guild)
    ensures var q := w.queues[guild];
      var r := Step(w, SinkIdle(guild), env, variant);
      && guild in r.queues
      && (q.items == [] ==> !r.queues[guild].isPlaying && r.queues[guild].currentItem == None)
      && (|q.items| > 0 && StartItem(q.items[0], env(q.items[0].id)).started ==>
            r.queues[guild].currentItem == Some(q.items[0]) && r.queues[guild].items == q.items[1..])
  {
    var q := w.queues[guild];
    assert Step(w, SinkIdle(guild), env, variant) == AdvanceGuild(w, guild, env);
    if |q.items| > 0 && StartItem(q.items[0], env(q.items[0].id)).started {
      PlayNextHeadStarts(guild, q, env);
    }
  }

  /** A successful `pause` implies that `skip` and `resume` would succeed too: `pause`
      has the strictest guard of the three commands. */
  lemma PauseGuardStrictest(w: World, guild: GuildId, sinkOk: bool)
    ensures Pause(w, guild, sinkOk) ==> Skip(w, guild) && Resume(w, guild, sinkOk)
    ensures Skip(w, guild) ==> Pause(w, guild, sinkOk) == sinkOk
  {
  }

  // ----- the two defects -----

  /** The record a lookup of `name` yields in the traces below. */
  function Track(name: string): VideoInfo {
    VideoInfo(name, 0, name, "", "Unknown")
  }

  /** A metadata process that exits 0 and prints an object for `name`. */
  function LookupOf(name: string): InfoRun {
    Closed(0, name, "", Some(InfoJson(Some(name), Some(0), Some(name), None, None, None)))
  }

  /** Every stream starts through the pipe, and every fresh resolution comes back empty. */
  function PipeStarts(id: ItemId): StartEnv {
    StartEnv(None, false, false, false)
  }

  /** Play a, b, c; a ends; play d; b ends; then the resolution `playNext` started for c
      (the head when b became current) completes. */
  function WrongItemTrace(): seq<Event> {
    [ PlayCommand("g", "a", "u", LookupOf("a"), Connected),
      PlayCommand("g", "b", "u", LookupOf("b"), Connected),
      PlayCommand("g", "c", "u", LookupOf("c"), Connected),
      SinkIdle("g"),
      PlayCommand("g", "d", "u", LookupOf("d"), Connected),
      SinkIdle("g"),
      Resolved(1, Some("media-c")) ]
  }

  function Item(id: ItemId, name: string): QueueItem {
    QueueItem(id, Track(name), "u", None)
  }

  /** The registry after `n` events of the trace: guild "g" on queue object 0, playing. */
  function Registry(items: seq<QueueItem>, current: QueueItem, infos: map<ItemId, VideoInfo>,
                    inFlight: seq<Prefetch>, nextId: nat): World {
    World(map["g" := GuildQueue(0, items, DefaultVolume, true, Some(current))], infos, inFlight, nextId)
  }

  const InfosA: map<ItemId, VideoInfo> := map[1 := Track("a")]
  const InfosB: map<ItemId, VideoInfo> := InfosA[2 := Track("b")]
  const InfosC: map<ItemId, VideoInfo> := InfosB[3 := Track("c")]
  const InfosD: map<ItemId, VideoInfo> := InfosC[4 := Track("d")]
  const ForB: Prefetch := Prefetch("g", 0, 2, "b", Enqueued)
  const ForC: Prefetch := Prefetch("g", 0, 3, "c", Advanced)
  const ForD: Prefetch := Prefetch("g", 0, 4, "d", Advanced)

  function State1(): World { Registry([], Item(1, "a"), InfosA, [], 2) }
  function State2(): World { Registry([Item(2, "b")], Item(1, "a"), InfosB, [ForB], 3) }
  function State3(): World { Registry([Item(2, "b"), Item(3, "c")], Item(1, "a"), InfosC, [ForB], 4) }
  function State4(): World { Registry([Item(3, "c")], Item(2, "b"), InfosC, [ForB, ForC], 4) }
  function State5(): World { Registry([Item(3, "c"), Item(4, "d")], Item(2, "b"), InfosD, [ForB, ForC], 5) }
  function State6(): World { Registry([Item(4, "d")], Item(3, "c"), InfosD, [ForB, ForC, ForD], 5) }

  lemma LookupOfYields(name: string)
    requires name != ""
    ensures GetYtdlpInfo(name, LookupOf(name)) == Ok(Track(name))
  {
  }

  /** Two worlds with equal parts are equal. */
  lemma SameWorld(r: World, s: World)
    requires r.queues == s.queues && r.infos == s.infos && r.inFlight == s.inFlight && r.nextId == s.nextId
    ensures r == s
  {
  }

  /** The world after `info` is pushed onto the playing queue of `guild`. */
  function Pushed(w: World, guild: GuildId, info: VideoInfo, who: string): World
    requires guild in w.queues
  {
    var q := w.queues[guild];
    var item := QueueItem(w.nextId, info, who, None);
    var pushed := q.(items := q.items + [item]);
    w.(queues := w.queues[guild := pushed], infos := w.infos[w.nextId := info],
       nextId := w.nextId + 1, inFlight := w.inFlight + EnqueuePrefetch(guild, pushed, item))
  }

  /** The world after a new queue for `guild` starts playing `info` at once. */
  function Registered(w: World, guild: GuildId, info: VideoInfo, who: string): World {
    var item := QueueItem(w.nextId + 1, info, who, None);
    w.(queues := w.queues[guild := GuildQueue(w.nextId, [], DefaultVolume, true, Some(item))],
       infos := w.infos[w.nextId + 1 := info], nextId := w.nextId + 2)
  }

  /** A `play` command whose lookup succeeds, on a guild whose queue is playing: the item
      is pushed behind the others. */
  lemma PlayWhilePlaying(w: World, e: Event, env: ItemId -> StartEnv, variant: Variant)
    requires e.PlayCommand? && e.query != "" && e.run == LookupOf(e.query)
    requires e.guild in w.queues && w.queues[e.guild].isPlaying
    ensures Step(w, e, env, variant) == Pushed(w, e.guild, Track(e.query), e.requestedBy)
  {
    LookupOfYields(e.query);
    EnqueueWhilePlayingPushes(w, e.guild, Track(e.query), e.requestedBy, env);
  }

  /** A `play` command whose lookup succeeds and whose connection comes up, on a guild with
      no queue, when the first item starts: a new playing queue holding just that item. */
  lemma PlayOnNewGuild(w: World, e: Event, env: ItemId -> StartEnv, variant: Variant)
    requires e.PlayCommand? && e.query != "" && e.run == LookupOf(e.query) && e.conn == Connected
    requires e.guild !in w.queues
    requires StartItem(QueueItem(w.nextId + 1, Track(e.query), e.requestedBy, None), env(w.nextId + 1)).started
    ensures Step(w, e, env, variant) == Registered(w, e.guild, Track(e.query), e.requestedBy)
  {
    LookupOfYields(e.query);
    StepPlayIsAttach(w, e, env, variant);
    AttachOnNewGuild(w, e.guild, Track(e.query), e.requestedBy, env);
    StartOnNewQueue(w, e.guild, Track(e.query), e.requestedBy, env);
  }

  /** A `play` command whose lookup succeeds goes on to register and enqueue. */
  lemma StepPlayIsAttach(w: World, e: Event, env: ItemId -> StartEnv, variant: Variant)
    requires e.PlayCommand? && GetYtdlpInfo(e.query, e.run).Ok?
    ensures Step(w, e, env, variant)
      == Attach(w, e.guild, GetYtdlpInfo(e.query, e.run).value, e.requestedBy, e.conn, env).world
  {
  }

  /** On a guild with no queue and a working connection, a new queue object is registered
      and the item is enqueued on it. */
  lemma AttachOnNewGuild(w: World, guild: GuildId, info: VideoInfo, who: string, env: ItemId -> StartEnv)
    requires guild !in w.queues
    ensures var w1 := w.(queues := w.queues[guild := NewQueue(w.nextId)], nextId := w.nextId + 1);
      Attach(w, guild, info, who, Connected, env) == Enqueue(w1, guild, info, who, env)
  {
    var w1 := w.(queues := w.queues[guild := NewQueue(w.nextId)], nextId := w.nextId + 1);
    assert EnsureQueue(w, guild, Connected) == Ok(w1);
  }

  /** Enqueueing onto the fresh queue of a guild that had none, when the item starts,
      leaves that item current and nothing pending or in flight. */
  lemma StartOnNewQueue(w: World, guild: GuildId, info: VideoInfo, who: string, env: ItemId -> StartEnv)
    requires guild !in w.queues
    requires StartItem(QueueItem(w.nextId + 1, info, who, None), env(w.nextId + 1)).started
    ensures var w1 := w.(queues := w.queues[guild := NewQueue(w.nextId)], nextId := w.nextId + 1);
      Enqueue(w1, guild, info, who, env).world == Registered(w, guild, info, who)
  {
    var w1 := w.(queues := w.queues[guild := NewQueue(w.nextId)], nextId := w.nextId + 1);
    EnqueueOnFresh(w1, guild, w.nextId, info, who, env);
    FreshQueueStarted(w, guild, info, who, env);
  }

  /** The world `Enqueue` leaves behind once `playNext` has started the first item of a
      fresh queue is the one `Registered` describes. */
  lemma FreshQueueStarted(w: World, guild: GuildId, info: VideoInfo, who: string, env: ItemId -> StartEnv)
    requires StartItem(QueueItem(w.nextId + 1, info, who, None), env(w.nextId + 1)).started
    ensures var w1 := w.(queues := w.queues[guild := NewQueue(w.nextId)], nextId := w.nextId + 1);
      var a := PlayNext(guild, NewQueue(w.nextId).(items := [QueueItem(w1.nextId, info, who, None)]), env);
      w1.(queues := w1.queues[guild := a.queue], infos := w1.infos[w1.nextId := info], nextId := w1.nextId + 1,
          inFlight := w1.inFlight + a.issued) == Registered(w, guild, info, who)
  {
    var w1 := w.(queues := w.queues[guild := NewQueue(w.nextId)], nextId := w.nextId + 1);
    var item := QueueItem(w1.nextId, info, who, None);
    var started := GuildQueue(w.nextId, [], DefaultVolume, true, Some(item));
    FirstItemStarts(guild, w.nextId, item, env);
    UpdateTwice(w.queues, guild, NewQueue(w.nextId), started);
    assert w.inFlight + [] == w.inFlight;
  }

  /** Enqueueing onto a fresh, empty queue hands the one item to `playNext`. */
  lemma EnqueueOnFresh(w: World, guild: GuildId, token: nat, info: VideoInfo, who: string,
                       env: ItemId -> StartEnv)
    requires guild in w.queues && w.queues[guild] == NewQueue(token)
    ensures var a := PlayNext(guild, NewQueue(token).(items := [QueueItem(w.nextId, info, who, None)]), env);
      Enqueue(w, guild, info, who, env).world ==
        w.(queues := w.queues[guild := a.queue], infos := w.infos[w.nextId := info], nextId := w.nextId + 1,
           inFlight := w.inFlight + a.issued)
  {
    assert w.queues[guild].items + [QueueItem(w.nextId, info, who, None)] == [QueueItem(w.nextId, info, who, None)];
    EnqueueIdleUnfolds(w, guild, info, who, env);
  }

  /** The first item of a fresh queue starts: it becomes current and nothing is resolved. */
  lemma FirstItemStarts(guild: GuildId, token: nat, item: QueueItem, env: ItemId -> StartEnv)
    requires StartItem(item, env(item.id)).started
    ensures var a := PlayNext(guild, NewQueue(token).(items := [item]), env);
      a.issued == [] && a.queue == GuildQueue(token, [], DefaultVolume, true, Some(item))
  {
    PlayNextHeadStarts(guild, NewQueue(token).(items := [item]), env);
  }

  /** Registering a key twice keeps the second value only. */
  lemma UpdateTwice(m: map<GuildId, GuildQueue>, g: GuildId, a: GuildQueue, b: GuildQueue)
    ensures m[g := a][g := b] == m[g := b]
  {
  }

  lemma TraceQueues0(w: World)
    requires w == Initial()
    ensures Registered(w, "g", Track("a"), "u").queues == State1().queues
  {
  }

  lemma TraceRest0(w: World)
    requires w == Initial()
    ensures var r := Registered(w, "g", Track("a"), "u");
      r.infos == State1().infos && r.inFlight == State1().inFlight && r.nextId == State1().nextId
  {
  }

  lemma TraceStep0(variant: Variant)
    ensures Step(Initial(), WrongItemTrace()[0], PipeStarts, variant) == State1()
  {
    var e := WrongItemTrace()[0];
    assert e == PlayCommand("g", "a", "u", LookupOf("a"), Connected);
    PlayOnNewGuild(Initial(), e, PipeStarts, variant);
    TraceQueues0(Initial());
    TraceRest0(Initial());
    SameWorld(Registered(Initial(), "g", Track("a"), "u"), State1());
  }

  lemma TraceQueues1(w: World)
    requires w == State1()
    ensures Pushed(w, "g", Track("b"), "u").queues == State2().queues
  {
    assert w.queues["g"].items + [Item(2, "b")] == [Item(2, "b")];
  }

  lemma TraceRest1(w: World)
    requires w == State1()
    ensures var r := Pushed(w, "g", Track("b"), "u");
      r.infos == State2().infos && r.inFlight == State2().inFlight && r.nextId == State2().nextId
  {
    assert w.queues["g"].items + [Item(2, "b")] == [Item(2, "b")];
  }

  lemma TraceStep1(variant: Variant)
    ensures Step(State1(), WrongItemTrace()[1], PipeStarts, variant) == State2()
  {
    var e := WrongItemTrace()[1];
    assert e == PlayCommand("g", "b", "u", LookupOf("b"), Connected);
    PlayWhilePlaying(State1(), e, PipeStarts, variant);
    TraceQueues1(State1());
    TraceRest1(State1());
    SameWorld(Pushed(State1(), "g", Track("b"), "u"), State2());
  }

  lemma TraceQueues2(w: World)
    requires w == State2()
    ensures Pushed(w, "g", Track("c"), "u").queues == State3().queues
  {
    assert w.queues["g"].items + [Item(3, "c")] == [Item(2, "b"), Item(3, "c")];
  }

  lemma TraceRest2(w: World)
    requires w == State2()
    ensures var r := Pushed(w, "g", Track("c"), "u");
      r.infos == State3().infos && r.inFlight == State3().inFlight && r.nextId == State3().nextId
  {
    assert w.queues["g"].items + [Item(3, "c")] == [Item(2, "b"), Item(3, "c")];
  }

  lemma TraceStep2(variant: Variant)
    ensures Step(State2(), WrongItemTrace()[2], PipeStarts, variant) == State3()
  {
    var e := WrongItemTrace()[2];
    assert e == PlayCommand("g", "c", "u", LookupOf("c"), Connected);
    PlayWhilePlaying(State2(), e, PipeStarts, variant);
    TraceQueues2(State2());
    TraceRest2(State2());
    SameWorld(Pushed(State2(), "g", Track("c"), "u"), State3());
  }

  lemma TraceQueues3(w: World, variant: Variant)
    requires w == State3()
    ensures Step(w, SinkIdle("g"), PipeStarts, variant).queues == State4().queues
  {
    PlayNextHeadStarts("g", State3().queues["g"], PipeStarts);
    assert State3().queues["g"].items[1..] == [Item(3, "c")];
  }

  lemma TraceRest3(w: World, variant: Variant)
    requires w == State3()
    ensures var r := Step(w, SinkIdle("g"), PipeStarts, variant);
      r.infos == State4().infos && r.inFlight == State4().inFlight && r.nextId == State4().nextId
  {
    PlayNextHeadStarts("g", State3().queues["g"], PipeStarts);
    assert State3().queues["g"].items[1..] == [Item(3, "c")];
  }

  lemma TraceStep3(variant: Variant)
    ensures Step(State3(), WrongItemTrace()[3], PipeStarts, variant) == State4()
  {
    assert WrongItemTrace()[3] == SinkIdle("g");
    TraceQueues3(State3(), variant);
    TraceRest3(State3(), variant);
    SameWorld(Step(State3(), SinkIdle("g"), PipeStarts, variant), State4());
  }

  lemma TraceQueues4(w: World)
    requires w == State4()
    ensures Pushed(w, "g", Track("d"), "u").queues == State5().queues
  {
    assert w.queues["g"].items + [Item(4, "d")] == [Item(3, "c"), Item(4, "d")];
  }

  lemma TraceRest4(w: World)
    requires w == State4()
    ensures var r := Pushed(w, "g", Track("d"), "u");
      r.infos == State5().infos && r.inFlight == State5().inFlight && r.nextId == State5().nextId
  {
    assert w.queues["g"].items + [Item(4, "d")] == [Item(3, "c"), Item(4, "d")];
  }

  lemma TraceStep4(variant: Variant)
    ensures Step(State4(), WrongItemTrace()[4], PipeStarts, variant) == State5()
  {
    var e := WrongItemTrace()[4];
    assert e == PlayCommand("g", "d", "u", LookupOf("d"), Connected);
    PlayWhilePlaying(State4(), e, PipeStarts, variant);
    TraceQueues4(State4());
    TraceRest4(State4());
    SameWorld(Pushed(State4(), "g", Track("d"), "u"), State5());
  }

  lemma TraceQueues5(w: World, variant: Variant)
    requires w == State5()
    ensures Step(w, SinkIdle("g"), PipeStarts, variant).queues == State6().queues
  {
    PlayNextHeadStarts("g", State5().queues["g"], PipeStarts);
    assert State5().queues["g"].items[1..] == [Item(4, "d")];
  }

  lemma TraceRest5(w: World, variant: Variant)
    requires w == State5()
    ensures var r := Step(w, SinkIdle("g"), PipeStarts, variant);
      r.infos == State6().infos && r.inFlight == State6().inFlight && r.nextId == State6().nextId
  {
    PlayNextHeadStarts("g", State5().queues["g"], PipeStarts);
    assert State5().queues["g"].items[1..] == [Item(4, "d")];
  }

  lemma TraceStep5(variant: Variant)
    ensures Step(State5(), WrongItemTrace()[5], PipeStarts, variant) == State6()
  {
    assert WrongItemTrace()[5] == SinkIdle("g");
    TraceQueues5(State5(), variant);
    TraceRest5(State5(), variant);
    SameWorld(Step(State5(), SinkIdle("g"), PipeStarts, variant), State6());
  }

  /** The last event of the trace: the resolution issued for c completes. As written it
      lands on d, the head of the pending list by then; corrected, it lands on c. */
  lemma TraceResolved(variant: Variant)
    ensures Step(State6(), WrongItemTrace()[6], PipeStarts, variant).queues["g"] ==
      if variant == AsWritten
      then GuildQueue(0, [Item(4, "d").(cachedUrl := Some("media-c"))], DefaultVolume, true, Some(Item(3, "c")))
      else GuildQueue(0, [Item(4, "d")], DefaultVolume, true, Some(Item(3, "c").(cachedUrl := Some("media-c"))))
  {
    assert WrongItemTrace()[6] == Resolved(1, Some("media-c"));
    assert State6().inFlight[1] == ForC;
    if variant == Corrected {
      assert SetCached([Item(4, "d")], 3, "media-c") == [Item(4, "d")];
    }
  }

  /** `Run` takes the events one at a time. */
  lemma RunAt(w: World, events: seq<Event>, n: nat, env: ItemId -> StartEnv, variant: Variant)
    requires n < |events|
    ensures Run(w, events[n..], env, variant) == Run(Step(w, events[n], env, variant), events[n + 1..], env, variant)
  {
    assert events[n..][0] == events[n] && events[n..][1..] == events[n + 1..];
  }

  /** The first three events of the trace, from start-up (`t` is the trace). */
  lemma WrongItemRunStart(t: seq<Event>, variant: Variant)
    requires t == WrongItemTrace()
    ensures Run(Initial(), t, PipeStarts, variant) == Run(State3(), t[3..], PipeStarts, variant)
  {
    assert t[0..] == t;
    RunAt(Initial(), t, 0, PipeStarts, variant); TraceStep0(variant);
    RunAt(State1(), t, 1, PipeStarts, variant); TraceStep1(variant);
    RunAt(State2(), t, 2, PipeStarts, variant); TraceStep2(variant);
  }

  /** Events four and five of the trace. */
  lemma WrongItemRunMiddle(t: seq<Event>, variant: Variant)
    requires t == WrongItemTrace()
    ensures Run(State3(), t[3..], PipeStarts, variant) == Run(State5(), t[5..], PipeStarts, variant)
  {
    RunAt(State3(), t, 3, PipeStarts, variant); TraceStep3(variant);
    RunAt(State4(), t, 4, PipeStarts, variant); TraceStep4(variant);
  }

  /** The last two events of the trace. */
  lemma WrongItemRunEnd(t: seq<Event>, variant: Variant)
    requires t == WrongItemTrace()
    ensures Run(State5(), t[5..], PipeStarts, variant) == Step(State6(), t[6], PipeStarts, variant)
  {
    RunAt(State5(), t, 5, PipeStarts, variant); TraceStep5(variant);
    RunAt(State6(), t, 6, PipeStarts, variant);
    assert t[7..] == [];
  }

  /** The seven events of the trace, from start-up. */
  lemma WrongItemRun(t: seq<Event>, variant: Variant)
    requires t == WrongItemTrace()
    ensures Run(Initial(), t, PipeStarts, variant) == Step(State6(), t[6], PipeStarts, variant)
  {
    WrongItemRunStart(t, variant);
    WrongItemRunMiddle(t, variant);
    WrongItemRunEnd(t, variant);
  }

  /** The guild's queue at the end of the trace, in either variant. */
  lemma WrongItemFinal(t: seq<Event>, variant: Variant)
    requires t == WrongItemTrace()
    ensures var w := Run(Initial(), t, PipeStarts, variant);
      && "g" in w.queues
      && w.queues["g"] ==
        if variant == AsWritten
        then GuildQueue(0, [Item(4, "d").(cachedUrl := Some("media-c"))], DefaultVolume, true, Some(Item(3, "c")))
        else GuildQueue(0, [Item(4, "d")], DefaultVolume, true, Some(Item(3, "c").(cachedUrl := Some("media-c"))))
  {
    WrongItemRun(t, variant);
    TraceResolved(variant);
    assert "g" in State6().queues;
  }

  /** Wrong-item write-back, as written: after play a, b, c, an Idle, play d and another
      Idle, the resolution `playNext` started for c (page URL "c") completes and its URL is
      cached on d, whose page URL is "d"; c, now playing, never gets it. */
  lemma PrefetchLandsOnWrongItem(t: seq<Event>)
    requires t == WrongItemTrace()
    ensures var w := Run(Initial(), t, PipeStarts, AsWritten);
      && "g" in w.queues && |w.queues["g"].items| == 1 && w.queues["g"].currentItem.Some?
      && w.queues["g"].items[0].info.url == "d" && w.queues["g"].items[0].cachedUrl == Some("media-c")
      && w.queues["g"].currentItem.value.info.url == "c" && w.queues["g"].currentItem.value.cachedUrl == None
    ensures State6().inFlight[1] == Prefetch("g", 0, 3, "c", Advanced) && t[6] == Resolved(1, Some("media-c"))
  {
    WrongItemFinal(t, AsWritten);
    TraceCompletesC(t);
  }

  /** The last event of the trace completes the resolution `playNext` started for c. */
  lemma TraceCompletesC(t: seq<Event>)
    requires t == WrongItemTrace()
    ensures State6().inFlight[1] == Prefetch("g", 0, 3, "c", Advanced) && t[6] == Resolved(1, Some("media-c"))
  {
  }

  /** The same trace with the write-back corrected: the URL resolved for c is cached on c. */
  lemma CorrectedPrefetchLandsOnItsItem(t: seq<Event>)
    requires t == WrongItemTrace()
    ensures var w := Run(Initial(), t, PipeStarts, Corrected);
      && "g" in w.queues && |w.queues["g"].items| == 1 && w.queues["g"].currentItem.Some?
      && w.queues["g"].items[0].info.url == "d" && w.queues["g"].items[0].cachedUrl == None
      && w.queues["g"].currentItem.value.info.url == "c" && w.queues["g"].currentItem.value.cachedUrl == Some("media-c")
  {
    WrongItemFinal(t, Corrected);
  }

  // ----- the double advance -----

  /** Double advance, as written: when the current stream fails, the audio player emits
      `error` and then goes Idle, and both listeners call `playNext`. With two items
      pending whose starts succeed, the first one becomes current and is replaced at once:
      it is skipped. */
  lemma {:induction false} ErrorThenIdleSkipsAnItem(w: World, guild: GuildId, env: ItemId -> StartEnv)
    requires guild in w.queues && |w.queues[guild].items| >= 2
    requires var q := w.queues[guild];
      StartItem(q.items[0], env(q.items[0].id)).started && StartItem(q.items[1], env(q.items[1].id)).started
    ensures var q := w.queues[guild];
      var r := Run(w, [SinkError(guild), SinkIdle(guild)], env, AsWritten);
      guild in r.queues && r.queues[guild].currentItem == Some(q.items[1]) && r.queues[guild].items == q.items[2..]
  {
    var q := w.queues[guild];
    var es := [SinkError(guild), SinkIdle(guild)];
    RunAt(w, es, 0, env, AsWritten);
    assert es[0..] == es;
    var w1 := Step(w, es[0], env, AsWritten);
    PlayNextHeadStarts(guild, q, env);
    assert w1.queues[guild] == PlayNext(guild, q, env).queue;
    RunAt(w1, es, 1, env, AsWritten);
    assert es[2..] == [];
    PlayNextHeadStarts(guild, w1.queues[guild], env);
    assert w1.queues[guild].items[0] == q.items[1] && w1.queues[guild].items[1..] == q.items[2..];
  }

  /** The events of `events` that are not player errors, in order. */
  function DropErrors(events: seq<Event>): (r: seq<Event>)
    ensures forall i :: 0 <= i < |r| ==> !r[i].SinkError?
    ensures |r| <= |events|
  {
    if events == [] then []
    else if events[0].SinkError? then DropErrors(events[1..])
    else [events[0]] + DropErrors(events[1..])
  }

  /** With the error listener corrected, a player error never moves a queue: every run
      ends where the same run without its error events ends, so each failure advances
      the queue only through the Idle event that follows it. */
  lemma {:induction false} CorrectedRunIgnoresErrors(w: World, events: seq<Event>, env: ItemId -> StartEnv)
    ensures Run(w, events, env, Corrected) == Run(w, DropErrors(events), env, Corrected)
    decreases |events|
  {
    if events != [] {
      var w1 := Step(w, events[0], env, Corrected);
      CorrectedRunIgnoresErrors(w1, events[1..], env);
      if events[0].SinkError? {
        assert w1 == w;
      } else {
        var d := DropErrors(events);
        assert d[0] == events[0] && d[1..] == DropErrors(events[1..]);
      }
    }
  }
}
