/** What the web client's player promises, proved about its step functions. */
module PlayerFacts {
  import opened Common
  import opened Cache
  import opened Player

  /** Playing without a ready widget only records the error. */
  lemma PlayNotReady(v: StoreView, c: CacheData, t: Track, skip: bool, token: bool, historyOk: bool, loadOk: bool)
    requires !Ready(v)
    ensures PlayStep(v, c, t, skip, token, historyOk, loadOk) == Outcome(v.(error := Some("Player not ready")), c, [])
  {
  }

  /** Playing a track makes it current, loading from the start with its own duration (0 when
      unknown), and takes its first occurrence out of the queue, the rest kept in order; the cached
      queue loses the same index. Exactly one occurrence of the id goes and every other track's count
      is left alone. */
  lemma PlayRemovesFirstOccurrence(v: StoreView, c: CacheData, t: Track, skip: bool, token: bool,
                                   historyOk: bool, loadOk: bool, other: string)
    requires Ready(v)
    ensures var o := PlayStep(v, c, t, skip, token, historyOk, loadOk);
      o.view.currentTrack == Some(t) && (o.view.state == Loading <==> loadOk)
      && o.view.progress == 0.0 && o.view.duration == DurationOrZero(t)
      && RemovedFirst(v.queue, c.queue, t.videoId, o.view.queue, o.cache.queue)
      && CountId(o.view.queue, other) ==
        (if other == t.videoId && CountId(v.queue, other) > 0 then CountId(v.queue, other) - 1 else CountId(v.queue, other))
      && (v.queue == c.queue ==> o.cache.queue == o.view.queue)
  {
    FirstIndexRemoval(v.queue, c.queue, t.videoId);
    RemoveFirstByIdCount(v.queue, t.videoId, other);
  }

  /** The history stack grows by one, with the track being left on top, exactly when `HistoryPushed`
      holds; otherwise it is untouched. The track played becomes current, with progress reset. */
  lemma PlayHistory(v: StoreView, c: CacheData, t: Track, skip: bool, token: bool, historyOk: bool, loadOk: bool)
    requires Ready(v)
    ensures var o := PlayStep(v, c, t, skip, token, historyOk, loadOk);
      o.view.currentTrack == Some(t) && o.view.progress == 0.0 && o.view.isPlayerVisible
      && (o.view.state == Loading <==> loadOk)
      && (HistoryPushed(skip, v.currentTrack, t, token, historyOk) ==>
            o.cache.reverseQueue == [v.currentTrack.value] + c.reverseQueue)
      && (!HistoryPushed(skip, v.currentTrack, t, token, historyOk) ==> o.cache.reverseQueue == c.reverseQueue)
      && (o.cache.lastPlayed == Some(t) || (!loadOk && o.cache.lastPlayed == c.lastPlayed))
  {
  }

  /** `next` with a non-empty queue plays its head and leaves the rest. */
  lemma NextPlaysHead(v: StoreView, c: CacheData, token: bool, historyOk: bool, loadOk: bool)
    requires Ready(v) && |v.queue| > 0
    ensures var o := NextStep(v, c, token, historyOk, loadOk);
      o.view.currentTrack == Some(v.queue[0]) && o.view.queue == v.queue[1..]
      && o.cmds[0] == LoadVideo(v.queue[0].videoId)
  {
    assert FindIndexById(v.queue, v.queue[0].videoId) == 0;
  }

  /** `next` with an empty queue stops: idle, no current track, history and cache untouched. */
  lemma NextOnEmptyQueueStops(v: StoreView, c: CacheData, token: bool, historyOk: bool, loadOk: bool)
    requires v.queue == []
    ensures var o := NextStep(v, c, token, historyOk, loadOk);
      o.view.state == Idle && o.view.currentTrack.None? && o.view.progress == 0.0 && o.view.duration == 0.0
      && o.view.queue == [] && o.cache == c
      && (o.cmds == [StopVideo] <==> v.hasWidget) && (o.cmds == [] <==> !v.hasWidget)
  {
  }

  /** More than three seconds in, `prev` restarts the current track and changes nothing else. */
  lemma PrevRestarts(v: StoreView, c: CacheData, loadOk: bool)
    requires v.progress > 3.0 && Ready(v)
    ensures PrevStep(v, c, loadOk) == Outcome(v.(progress := 0.0), c, [SeekTo(0.0)])
  {
  }

  /** With nothing to go back to, `prev` restarts the current track if there is one. */
  lemma PrevWithoutHistory(v: StoreView, c: CacheData, loadOk: bool)
    requires v.progress <= 3.0 && c.reverseQueue == [] && Ready(v)
    ensures PrevStep(v, c, loadOk) ==
      if v.currentTrack.Some? then Outcome(v.(progress := 0.0), c, [SeekTo(0.0)]) else Outcome(v, c, [])
  {
  }

  /** Otherwise `prev` pops the history, plays the popped track without recording history, and puts
      the track it leaves at the head of the queue (unless it is the same video). */
  lemma PrevGoesBack(v: StoreView, c: CacheData, loadOk: bool)
    requires v.progress <= 3.0 && c.reverseQueue != [] && Ready(v)
    ensures var o := PrevStep(v, c, loadOk);
      var p := c.reverseQueue[0];
      o.view.currentTrack == Some(p) && o.cache.reverseQueue == c.reverseQueue[1..]
      && (v.currentTrack.Some? && v.currentTrack.value.videoId != p.videoId ==>
            o.view.queue == [v.currentTrack.value] + RemoveFirstById(v.queue, p.videoId)
            && o.cache.queue == o.view.queue)
      && (!(v.currentTrack.Some? && v.currentTrack.value.videoId != p.videoId) ==>
            o.view.queue == RemoveFirstById(v.queue, p.videoId))
  {
    var p := c.reverseQueue[0];
    if v.currentTrack.Some? && v.currentTrack.value.videoId != p.videoId {
      RemoveFirstByIdUnfold([v.currentTrack.value] + v.queue, p.videoId);
      assert ([v.currentTrack.value] + v.queue)[1..] == v.queue;
    }
  }

  /** The history is popped and the queue rebuilt before readiness is checked: pressing `prev`
      without a ready widget still loses the top of the history and puts the current track in front
      of both queues, and only then fails with "Player not ready", commanding nothing. */
  lemma PrevWithoutWidget(v: StoreView, c: CacheData, loadOk: bool)
    requires v.progress <= 3.0 && c.reverseQueue != [] && !Ready(v)
    ensures var o := PrevStep(v, c, loadOk);
      var p := c.reverseQueue[0];
      o.cache.reverseQueue == c.reverseQueue[1..] && o.view.error == Some("Player not ready") && o.cmds == []
      && o.view.currentTrack == v.currentTrack && o.view.state == v.state && o.cache.lastPlayed == c.lastPlayed
      && (v.currentTrack.Some? && v.currentTrack.value.videoId != p.videoId ==>
            o.view.queue == [v.currentTrack.value] + v.queue && o.cache.queue == o.view.queue)
      && (!(v.currentTrack.Some? && v.currentTrack.value.videoId != p.videoId) ==>
            o.view.queue == v.queue && o.cache.queue == c.queue)
  {
  }

  /** `prev` undoes `next`: after skipping forward from a track that is not queued, going back
      restores the current track, the queue (in memory and in the cache) and the history stack. */
  lemma NextThenPrev(v: StoreView, c: CacheData, token: bool, historyOk: bool, loadOk: bool, loadOk2: bool)
    requires Ready(v) && v.queue == c.queue && |v.queue| > 0 && v.currentTrack.Some?
    requires forall k :: 0 <= k < |v.queue| ==> v.queue[k].videoId != v.currentTrack.value.videoId
    requires !token || historyOk
    ensures var o1 := NextStep(v, c, token, historyOk, loadOk);
      var o2 := PrevStep(o1.view, o1.cache, loadOk2);
      o2.view.currentTrack == v.currentTrack && o2.view.queue == v.queue
      && o2.cache.queue == c.queue && o2.cache.reverseQueue == c.reverseQueue
  {
    var cur := v.currentTrack.value;
    var head := v.queue[0];
    NextPlaysHead(v, c, token, historyOk, loadOk);
    var o1 := NextStep(v, c, token, historyOk, loadOk);
    assert o1.cache.reverseQueue == [cur] + c.reverseQueue;
    assert o1.cache.queue == v.queue[1..];
    assert [head] + v.queue[1..] == v.queue;
    assert FindIndexById(v.queue, cur.videoId) == -1;
  }

  /** The pause/resume toggle only commands the widget while a track is playing or paused; an idle
      store plays its current track again, from the start and without touching the history. */
  lemma ToggleRules(v: StoreView, c: CacheData, loadOk: bool)
    requires v.currentTrack.Some? && Ready(v)
    ensures v.state == Playing ==> ToggleStep(v, c, loadOk) == Outcome(v, c, [PauseVideo])
    ensures v.state == Paused ==> ToggleStep(v, c, loadOk) == Outcome(v, c, [PlayVideo])
    ensures v.state == Idle ==>
      var o := ToggleStep(v, c, loadOk);
      var id := v.currentTrack.value.videoId;
      o.view.currentTrack == v.currentTrack && o.cache.reverseQueue == c.reverseQueue
      && (o.view.state == Loading <==> loadOk) && o.view.progress == 0.0
      && o.cmds[0] == LoadVideo(id)
      && RemovedFirst(v.queue, c.queue, id, o.view.queue, o.cache.queue)
    ensures v.state == Loading || v.state == Error ==> ToggleStep(v, c, loadOk) == Outcome(v, c, [])
  {
    if v.state == Idle {
      var t := v.currentTrack.value;
      assert ToggleStep(v, c, loadOk) == PlayStep(v, c, t, false, false, false, loadOk);
      PlayRemovesFirstOccurrence(v, c, t, false, false, false, loadOk, t.videoId);
    }
  }

  /** A pause reported while the page is hidden is not believed: the state stays, and three
      resume attempts are scheduled. */
  lemma HiddenPauseIsResisted(v: StoreView, c: CacheData, token: bool, historyOk: bool, loadOk: bool)
    ensures StateChangeStep(v, c, WidgetPaused, Hidden, token, historyOk, loadOk) ==
      Outcome(v, c, [ScheduleForceResume(50), ScheduleForceResume(100), ScheduleForceResume(200)])
    ensures StateChangeStep(v, c, WidgetPaused, Visible, token, historyOk, loadOk).view.state == Paused
  {
  }

  /** After a full pull-sync the liked ids are exactly the remote ids. */
  lemma {:induction false} LikesOfKeys(rs: seq<RemoteTrack>)
    ensures forall id :: id in LikesOf(rs) <==> exists i :: 0 <= i < |rs| && rs[i].trackId == id
  {
    if rs != [] {
      var p := rs[..|rs| - 1];
      LikesOfKeys(p);
      forall id ensures id in LikesOf(rs) <==> exists i :: 0 <= i < |rs| && rs[i].trackId == id {
        if id in LikesOf(p) {
          var i :| 0 <= i < |p| && p[i].trackId == id;
          assert rs[i].trackId == id;
        }
        if exists i :: 0 <= i < |rs| && rs[i].trackId == id {
          var i :| 0 <= i < |rs| && rs[i].trackId == id;
          if i < |p| { assert p[i].trackId == id; }
        }
      }
    }
  }

  /** Each liked id holds the last remote entry with that id. */
  lemma {:induction false} LikesOfValues(rs: seq<RemoteTrack>, i: int)
    requires 0 <= i < |rs|
    requires forall j :: i < j < |rs| ==> rs[j].trackId != rs[i].trackId
    ensures rs[i].trackId in LikesOf(rs) && LikesOf(rs)[rs[i].trackId] == ToTrack(rs[i])
  {
    var p := rs[..|rs| - 1];
    if i < |p| {
      assert forall j :: i < j < |p| ==> p[j] == rs[j];
      LikesOfValues(p, i);
    }
  }

  /** The merging pull-sync only adds: every local like keeps its entry, and the liked ids become the
      local ids together with the remote ones. */
  lemma {:induction false} MergeLikesSpec(m: map<string, Track>, rs: seq<RemoteTrack>)
    ensures forall id :: id in m ==> id in MergeLikes(m, rs) && MergeLikes(m, rs)[id] == m[id]
    ensures forall id :: id in MergeLikes(m, rs) <==> id in m || exists i :: 0 <= i < |rs| && rs[i].trackId == id
  {
    if rs != [] {
      var p := rs[..|rs| - 1];
      MergeLikesSpec(m, p);
      forall id ensures id in MergeLikes(m, rs) <==> id in m || exists i :: 0 <= i < |rs| && rs[i].trackId == id {
        if exists i :: 0 <= i < |p| && p[i].trackId == id {
          var i :| 0 <= i < |p| && p[i].trackId == id;
          assert rs[i].trackId == id;
        }
        if exists i :: 0 <= i < |rs| && rs[i].trackId == id {
          var i :| 0 <= i < |rs| && rs[i].trackId == id;
          if i < |p| { assert p[i].trackId == id; }
        }
      }
    }
  }
}
