/** One guild's playback queue and `playNext`, the advance that every other transition
    leads to: take the head of the pending items, make it the current item, issue a
    prefetch for the new head, and start its stream; a start that throws drops the item
    and advances again. */
module Queue {
  import opened Basics
  import opened Ytdlp
  import opened StreamSource

  /** Identity of a queue item object (the source compares and mutates items by reference). */
  type ItemId = nat

  type GuildId = string

  /** A track in a queue. `cachedUrl` is the prefetched direct URL, written asynchronously. */
  datatype QueueItem = QueueItem(id: ItemId, info: VideoInfo, requestedBy: string, cachedUrl: Option<string>)

  /** The model of `GuildQueue`: `token` stands for the identity of the queue object that
      callbacks hold on to; the player, connection and text channel are external. */
  datatype GuildQueue = GuildQueue(
    token: nat, items: seq<QueueItem>, volume: nat, isPlaying: bool, currentItem: Option<QueueItem>)

  /** `defaultConfig.defaultVolume`. */
  const DefaultVolume: nat := 80

  /** Where a background `getDirectOpusUrl` was started: by `play` for the item just
      enqueued, or by `playNext` for the item that became the head. */
  datatype Origin = Enqueued | Advanced

  /** A background direct-URL resolution in flight: the guild and queue object it will
      write to, the item it was started for and that item's page URL. */
  datatype Prefetch = Prefetch(guild: GuildId, queueToken: nat, forItem: ItemId, pageUrl: string, origin: Origin)

  /** What the outside world does when an item is started: the value a fresh
      `getDirectOpusUrl` resolves with, whether `createStreamFromUrl` throws, whether
      `createYtdlpStream` throws, and whether creating or playing the audio resource throws. */
  datatype StartEnv = StartEnv(resolved: Option<string>, directThrows: bool, pipeThrows: bool, playThrows: bool)

  /** One attempt to start an item: the source chosen and whether the stream started. */
  datatype Attempt = Attempt(item: ItemId, choice: Choice, started: bool)

  /** The queue after `playNext`, the prefetches it issued, and its start attempts in order. */
  datatype Advance = Advance(queue: GuildQueue, issued: seq<Prefetch>, attempts: seq<Attempt>)

  /** The queue invariant at transition boundaries: playing exactly when an item is current,
      and nothing pending while not playing. */
  predicate Consistent(q: GuildQueue) {
    (q.isPlaying <==> q.currentItem.Some?) && (!q.isPlaying ==> q.items == [])
  }

  /** The empty queue `play` registers for a new guild. */
  function NewQueue(token: nat): (q: GuildQueue)
    ensures Consistent(q) && q.items == [] && !q.isPlaying && q.currentItem == None
    ensures q.volume == DefaultVolume && q.token == token
  {
    GuildQueue(token, [], DefaultVolume, false, None)
  }

  /** The `try` block of `playNext` for one item: the source decision, then whether a
      stream was created and handed to the player without throwing. */
  function StartItem(item: QueueItem, e: StartEnv): (a: Attempt)
    ensures a.item == item.id
    ensures a.choice == ChooseSource(item.cachedUrl, item.info.url, e.resolved, e.directThrows)
    ensures a.started <==> !e.playThrows && (a.choice.source.Direct? || !e.pipeThrows)
  {
    var c := ChooseSource(item.cachedUrl, item.info.url, e.resolved, e.directThrows);
    Attempt(item.id, c, !e.playThrows && !(c.source.Pipe? && e.pipeThrows))
  }

  /** The prefetch `playNext` issues once `rest` is the pending list: for its head, when
      that head has no cached URL yet. */
  function HeadPrefetch(guild: GuildId, token: nat, rest: seq<QueueItem>): (p: seq<Prefetch>)
    ensures |p| <= 1
    ensures |p| == 1 <==> |rest| > 0 && !Truthy(rest[0].cachedUrl)
    ensures |p| == 1 ==> p[0] == Prefetch(guild, token, rest[0].id, rest[0].info.url, Advanced)
  {
    if |rest| > 0 && !Truthy(rest[0].cachedUrl) then [Prefetch(guild, token, rest[0].id, rest[0].info.url, Advanced)]
    else []
  }

  /** `p` was issued by `playNext` on queue `q` of `guild`, for one of its pending items. */
  predicate IssuedFor(guild: GuildId, q: GuildQueue, p: Prefetch) {
    && p.guild == guild && p.queueToken == q.token && p.origin == Advanced
    && exists x :: x in q.items && x.id == p.forItem && x.info.url == p.pageUrl
  }

  /** `playNext(guildId)` on the guild's queue. An empty queue stops playing. Otherwise
      the head becomes current and the rest stays pending in order (strict FIFO); if its
      start throws, the item is dropped, `isPlaying` is cleared and the queue advances
      again. `env` gives the outside world's behaviour for each item started. */
  function PlayNext(guild: GuildId, q: GuildQueue, env: ItemId -> StartEnv): (r: Advance)
    ensures Consistent(r.queue)
    ensures r.queue.token == q.token && r.queue.volume == q.volume
    // the pending items left are a suffix of the old ones, in the same order,
    // and one start was attempted for each item removed
    ensures |r.queue.items| <= |q.items| && r.queue.items == q.items[|q.items| - |r.queue.items|..]
    ensures |r.attempts| == |q.items| - |r.queue.items|
    ensures r.queue.isPlaying ==> 1 <= |r.attempts|
    decreases |q.items|
  {
    if |q.items| == 0 then
      Advance(q.(isPlaying := false, currentItem := None), [], [])
    else
      var item := q.items[0];
      var rest := q.items[1..];
      var issued := HeadPrefetch(guild, q.token, rest);
      var a := StartItem(item, env(item.id));
      var playing := q.(items := rest, currentItem := Some(item), isPlaying := true);
      if a.started then
        Advance(playing, issued, [a])
      else
        var next := PlayNext(guild, playing.(isPlaying := false), env);
        assert next.queue.items == q.items[|q.items| - |next.queue.items|..];
        Advance(next.queue, issued + next.issued, [a] + next.attempts)
  }

  /** Strict FIFO: the item `playNext` leaves current is the one just before the pending
      items that remain. */
  lemma {:induction false} PlayNextCurrentIsNextInLine(guild: GuildId, q: GuildQueue, env: ItemId -> StartEnv)
    ensures var r := PlayNext(guild, q, env);
      r.queue.isPlaying ==> r.queue.currentItem == Some(q.items[|r.attempts| - 1])
    decreases |q.items|
  {
    if |q.items| > 0 {
      if StartItem(q.items[0], env(q.items[0].id)).started {
        PlayNextHeadStarts(guild, q, env);
      } else {
        var q' := q.(items := q.items[1..], currentItem := Some(q.items[0]), isPlaying := false);
        PlayNextCurrentIsNextInLine(guild, q', env);
        var next := PlayNext(guild, q', env);
        assert PlayNext(guild, q, env).queue == next.queue;
        assert |PlayNext(guild, q, env).attempts| == 1 + |next.attempts|;
        if next.queue.isPlaying {
          assert q'.items[|next.attempts| - 1] == q.items[|next.attempts|];
        }
      }
    }
  }

  /** When the head starts, it becomes the current item and the rest stays pending. */
  lemma PlayNextHeadStarts(guild: GuildId, q: GuildQueue, env: ItemId -> StartEnv)
    requires |q.items| > 0 && StartItem(q.items[0], env(q.items[0].id)).started
    ensures var r := PlayNext(guild, q, env);
      && r.queue.isPlaying && r.queue.currentItem == Some(q.items[0]) && r.queue.items == q.items[1..]
      && |r.attempts| == 1
  {
  }

  /** One start is attempted per removed item, in queue order, each under the outside
      world's behaviour for that item. */
  lemma {:induction false} PlayNextAttemptsInOrder(guild: GuildId, q: GuildQueue, env: ItemId -> StartEnv)
    ensures var r := PlayNext(guild, q, env);
      forall i :: 0 <= i < |r.attempts| ==> r.attempts[i] == StartItem(q.items[i], env(q.items[i].id))
    decreases |q.items|
  {
    if |q.items| > 0 && !StartItem(q.items[0], env(q.items[0].id)).started {
      var q' := q.(items := q.items[1..], currentItem := Some(q.items[0]), isPlaying := false);
      PlayNextAttemptsInOrder(guild, q', env);
      var next := PlayNext(guild, q', env);
      var r := PlayNext(guild, q, env);
      assert r.attempts == [StartItem(q.items[0], env(q.items[0].id))] + next.attempts;
      forall i | 1 <= i < |r.attempts| ensures r.attempts[i] == StartItem(q.items[i], env(q.items[i].id)) {
        assert r.attempts[i] == next.attempts[i - 1];
        assert q'.items[i - 1] == q.items[i];
      }
    }
  }

  /** Only the last attempt started a stream, and it did exactly when the queue is left
      playing. */
  predicate OnlyLastStarted(r: Advance) {
    forall i :: 0 <= i < |r.attempts| ==> (r.attempts[i].started <==> r.queue.isPlaying && i == |r.attempts| - 1)
  }

  /** `playNext` stops at the first item whose start does not throw. */
  lemma {:induction false} PlayNextOnlyLastStarts(guild: GuildId, q: GuildQueue, env: ItemId -> StartEnv)
    ensures OnlyLastStarted(PlayNext(guild, q, env))
    decreases |q.items|
  {
    if |q.items| > 0 && !StartItem(q.items[0], env(q.items[0].id)).started {
      var q' := q.(items := q.items[1..], currentItem := Some(q.items[0]), isPlaying := false);
      PlayNextOnlyLastStarts(guild, q', env);
      var next := PlayNext(guild, q', env);
      var r := PlayNext(guild, q, env);
      assert r.queue == next.queue;
      assert r.attempts == [StartItem(q.items[0], env(q.items[0].id))] + next.attempts;
      forall i | 1 <= i < |r.attempts|
        ensures r.attempts[i].started <==> r.queue.isPlaying && i == |r.attempts| - 1
      {
        assert r.attempts[i] == next.attempts[i - 1];
      }
    }
  }

  /** An item whose start throws is never left as the current item: `playNext` drops it
      and moves on, whichever position it held. */
  lemma PlayNextSkipsFailingItem(guild: GuildId, q: GuildQueue, env: ItemId -> StartEnv, x: QueueItem)
    requires !StartItem(x, env(x.id)).started
    ensures PlayNext(guild, q, env).queue.currentItem != Some(x)
  {
    var r := PlayNext(guild, q, env);
    if r.queue.isPlaying {
      PlayNextCurrentIsNextInLine(guild, q, env);
      PlayNextAttemptsInOrder(guild, q, env);
      PlayNextOnlyLastStarts(guild, q, env);
      var n := |r.attempts|;
      assert r.attempts[n - 1].started;
      assert r.attempts[n - 1] == StartItem(q.items[n - 1], env(q.items[n - 1].id));
    }
  }

  /** The prefetches `n` attempts issue, as `playNext` orders them: attempt `i` takes
      item `i` off the pending list and prefetches the head that is left, item `i + 1`. */
  function AttemptPrefetches(guild: GuildId, token: nat, items: seq<QueueItem>, n: nat): seq<Prefetch>
    requires n <= |items|
    decreases n
  {
    if n == 0 then [] else HeadPrefetch(guild, token, items[1..]) + AttemptPrefetches(guild, token, items[1..], n - 1)
  }

  /** The resolutions `playNext` issues are exactly one head prefetch per attempted start,
      in order. */
  lemma {:induction false} PlayNextIssuesPerAttempt(guild: GuildId, q: GuildQueue, env: ItemId -> StartEnv)
    ensures var r := PlayNext(guild, q, env);
      r.issued == AttemptPrefetches(guild, q.token, q.items, |r.attempts|)
    decreases |q.items|
  {
    if |q.items| > 0 && !StartItem(q.items[0], env(q.items[0].id)).started {
      var q' := q.(items := q.items[1..], currentItem := Some(q.items[0]), isPlaying := false);
      PlayNextIssuesPerAttempt(guild, q', env);
    }
  }

  /** When the head starts, `playNext` issues exactly one resolution, for the new head,
      and only when that head has no truthy cached URL. */
  lemma PlayNextHeadStartsIssues(guild: GuildId, q: GuildQueue, env: ItemId -> StartEnv)
    requires |q.items| > 0 && StartItem(q.items[0], env(q.items[0].id)).started
    ensures var r := PlayNext(guild, q, env);
      && (|r.issued| == 1 <==> |q.items| > 1 && !Truthy(q.items[1].cachedUrl)) && |r.issued| <= 1
      && (|r.issued| == 1 ==> r.issued[0] == Prefetch(guild, q.token, q.items[1].id, q.items[1].info.url, Advanced))
  {
    PlayNextIssuesPerAttempt(guild, q, env);
    PlayNextHeadStarts(guild, q, env);
    assert AttemptPrefetches(guild, q.token, q.items[1..], 0) == [];
  }

  /** Every prefetch `playNext` issues is tagged with this guild and queue object and is
      for one of the queue's pending items, under that item's page URL. */
  lemma {:induction false} PlayNextPrefetchesOwnItems(guild: GuildId, q: GuildQueue, env: ItemId -> StartEnv)
    ensures forall p :: p in PlayNext(guild, q, env).issued ==> IssuedFor(guild, q, p)
    decreases |q.items|
  {
    if |q.items| > 0 {
      var item := q.items[0];
      var rest := q.items[1..];
      var issued := HeadPrefetch(guild, q.token, rest);
      if |issued| == 1 {
        assert rest[0] == q.items[1];
      }
      assert forall p :: p in issued ==> IssuedFor(guild, q, p);
      if !StartItem(item, env(item.id)).started {
        var q' := q.(items := rest, currentItem := Some(item), isPlaying := false);
        PlayNextPrefetchesOwnItems(guild, q', env);
        assert forall x :: x in rest ==> x in q.items;
        assert forall p :: IssuedFor(guild, q', p) ==> IssuedFor(guild, q, p);
      }
    }
  }

  /** Items present in a queue, pending or current. */
  function Members(q: GuildQueue): seq<QueueItem> {
    q.items + (if q.currentItem.Some? then [q.currentItem.value] else [])
  }

  /** `playNext` only moves items: everything in the queue afterwards was in it before. */
  lemma {:induction false} PlayNextMembers(guild: GuildId, q: GuildQueue, env: ItemId -> StartEnv)
    ensures forall x :: x in Members(PlayNext(guild, q, env).queue) ==> x in q.items
  {
    PlayNextCurrentIsNextInLine(guild, q, env);
    var r := PlayNext(guild, q, env);
    MembersDrawnFrom(q.items, r.queue, |r.attempts|);
  }

  /** A queue whose pending items are a suffix of `items` and whose current item, if any,
      is the `n`-th of `items` holds nothing but items of `items`. */
  lemma MembersDrawnFrom(items: seq<QueueItem>, r: GuildQueue, n: nat)
    requires |r.items| <= |items| && r.items == items[|items| - |r.items|..]
    requires r.currentItem.Some? ==> 1 <= n <= |items| && r.currentItem == Some(items[n - 1])
    ensures forall x :: x in Members(r) ==> x in items
  {
    var k := |items| - |r.items|;
    forall x | x in Members(r) ensures x in items {
      if x in r.items {
        var j :| 0 <= j < |r.items| && r.items[j] == x;
        assert items[k + j] == x;
      }
    }
  }

  /** Writing `cachedUrl` on the item object `id`: every occurrence of that object gets the
      URL, every other item is left as it was. */
  function SetCached(items: seq<QueueItem>, id: ItemId, u: string): (r: seq<QueueItem>)
    ensures |r| == |items|
    ensures forall i :: 0 <= i < |items| && items[i].id != id ==> r[i] == items[i]
    ensures forall i :: 0 <= i < |items| && items[i].id == id ==> r[i] == items[i].(cachedUrl := Some(u))
  {
    if items == [] then []
    else [if items[0].id == id then items[0].(cachedUrl := Some(u)) else items[0]] + SetCached(items[1..], id, u)
  }
}
