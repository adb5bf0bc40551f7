/** The playback coordinator of the web client (vercel-serverless/frontend/src/services/player.ts):
    one embedded video widget, a forward queue, a history stack kept in the local cache, likes, and the
    decisions that keep playback alive in the background.

    The store's fields are the fields of `PlayerStore`; the local cache is a separate object. Each
    operation that changes state is specified by a pure step function on a snapshot of the store and
    of the cache (`PlayStep`, `NextStep`, `PrevStep`, ...), and what the store promises is proved about
    those functions. Everything the store learns from outside (whether a token is present, whether a
    request succeeded, what the widget reports, whether the page is visible) is a parameter. */
module Player {
  import opened Common
  import opened Cache

  datatype PlayerState = Idle | Loading | Playing | Paused | Error

  /** The states the widget reports (`YT.PlayerState`). */
  datatype WidgetState = Unstarted | Ended | WidgetPlaying | WidgetPaused | Buffering | Cued

  datatype Visibility = Visible | Hidden

  /** What the store asks of the widget, or schedules for later. */
  datatype Command =
    | LoadVideo(videoId: string)
    | PlayVideo
    | PauseVideo
    | StopVideo
    | SeekTo(seconds: real)
    | SetWidgetVolume(level: real)
    | ScheduleNext(delayMs: nat)
    | ScheduleForceResume(delayMs: nat)

  /** A snapshot of the store's fields. `hasWidget` is `ytPlayer !== null`. */
  datatype StoreView = StoreView(
    state: PlayerState,
    currentTrack: Option<Track>,
    queue: seq<Track>,
    volume: real,
    progress: real,
    duration: real,
    error: Option<string>,
    isPlayerVisible: bool,
    hasWidget: bool,
    widgetReady: bool)

  /** The store and the cache after an operation, and the widget commands it issued in order. */
  datatype Outcome = Outcome(view: StoreView, cache: CacheData, cmds: seq<Command>)

  predicate Ready(v: StoreView) {
    v.hasWidget && v.widgetReady
  }

  /** A liked track or history entry as the remote API returns it. */
  datatype RemoteTrack = RemoteTrack(
    trackId: string, title: string, artist: string, thumbnail: Option<string>, duration: Option<real>)

  /** The conversion both pull-syncs apply (`thumbnail || ''`, `duration || 0`). */
  function ToTrack(r: RemoteTrack): (t: Track)
    ensures t.videoId == r.trackId && t.duration.Some?
  {
    Track(r.trackId, r.title, r.artist, r.thumbnail.GetOr(""), Some(r.duration.GetOr(0.0)))
  }

  function ToTracks(rs: seq<RemoteTrack>): (ts: seq<Track>)
    ensures |ts| == |rs| && forall i :: 0 <= i < |rs| ==> ts[i] == ToTrack(rs[i])
  {
    if rs == [] then [] else [ToTrack(rs[0])] + ToTracks(rs[1..])
  }

  // ---------------------------------------------------------------------------------------------
  // Step functions

  /** Whether `_playInternal` records the track being left on the history stack: not when going back,
      not when nothing was current or the same video is played again, and for a signed-in user only
      once the history request came back ok (a guest's push is local and always happens). */
  predicate HistoryPushed(skipHistory: bool, previous: Option<Track>, track: Track, token: bool, historyOk: bool) {
    !skipHistory && previous.Some? && previous.value.videoId != track.videoId && (!token || historyOk)
  }

  /** `_playInternal(track, skipHistory)`. `loadOk` is false when loading the video into the widget
      throws. */
  function PlayStep(v: StoreView, c: CacheData, track: Track, skipHistory: bool,
                    token: bool, historyOk: bool, loadOk: bool): Outcome
  {
    if !Ready(v) then
      Outcome(v.(error := Some("Player not ready")), c, [])
    else
      var idx := FindIndexById(v.queue, track.videoId);
      var history :=
        if HistoryPushed(skipHistory, v.currentTrack, track, token, historyOk)
        then [v.currentTrack.value] + c.reverseQueue
        else c.reverseQueue;
      Outcome(
        v.(state := if loadOk then Loading else Error,
           currentTrack := Some(track),
           queue := RemoveAt(v.queue, idx),
           error := if loadOk then None else Some("Failed to play track"),
           progress := 0.0,
           duration := DurationOrZero(track),
           isPlayerVisible := true),
        c.(queue := RemoveAt(c.queue, idx),
           reverseQueue := history,
           lastPlayed := if loadOk then Some(track) else c.lastPlayed),
        [LoadVideo(track.videoId)] + (if loadOk then [] else [ScheduleNext(2000)]))
  }

  /** `seek(seconds)`: no clamping; nothing happens unless the widget is ready. */
  function SeekStep(v: StoreView, c: CacheData, seconds: real): Outcome {
    if Ready(v) then Outcome(v.(progress := seconds), c, [SeekTo(seconds)]) else Outcome(v, c, [])
  }

  /** `togglePlay()`. Pausing and resuming only command the widget; the state follows from the
      widget's own events. */
  function ToggleStep(v: StoreView, c: CacheData, loadOk: bool): Outcome {
    if v.currentTrack.None? || !Ready(v) then Outcome(v, c, [])
    else if v.state == Playing then Outcome(v, c, [PauseVideo])
    else if v.state == Paused then Outcome(v, c, [PlayVideo])
    else if v.state == Idle then PlayStep(v, c, v.currentTrack.value, false, false, false, loadOk)
    else Outcome(v, c, [])
  }

  /** `next()`. */
  function NextStep(v: StoreView, c: CacheData, token: bool, historyOk: bool, loadOk: bool): Outcome {
    if |v.queue| > 0 then PlayStep(v, c, v.queue[0], false, token, historyOk, loadOk)
    else
      Outcome(v.(state := Idle, currentTrack := None, progress := 0.0, duration := 0.0), c,
              if v.hasWidget then [StopVideo] else [])
  }

  /** `prev()`. After the history stack was found non-empty, popping it cannot give null, so the
      null check that follows the pop never fires. */
  function PrevStep(v: StoreView, c: CacheData, loadOk: bool): Outcome {
    if v.progress > 3.0 then SeekStep(v, c, 0.0)
    else if c.reverseQueue == [] then
      (if v.currentTrack.Some? then SeekStep(v, c, 0.0) else Outcome(v, c, []))
    else
      var popped := c.reverseQueue[0];
      var c1 := c.(reverseQueue := c.reverseQueue[1..]);
      if v.currentTrack.Some? && v.currentTrack.value.videoId != popped.videoId then
        var q := [v.currentTrack.value] + v.queue;
        PlayStep(v.(queue := q), c1.(queue := q), popped, true, false, false, loadOk)
      else
        PlayStep(v, c1, popped, true, false, false, loadOk)
  }

  /** The widget's `onStateChange` event. */
  function StateChangeStep(v: StoreView, c: CacheData, ws: WidgetState, visibility: Visibility,
                           token: bool, historyOk: bool, loadOk: bool): Outcome
  {
    match ws
    case WidgetPlaying => Outcome(v.(state := Playing, error := None), c, [])
    case WidgetPaused =>
      if visibility == Visible then Outcome(v.(state := Paused), c, [])
      else Outcome(v, c, [ScheduleForceResume(50), ScheduleForceResume(100), ScheduleForceResume(200)])
    case Buffering => Outcome(v.(state := Loading), c, [])
    case Ended => NextStep(v, c, token, historyOk, loadOk)
    case _ => Outcome(v, c, [])
  }

  /** The local likes after `syncFromDatabase`: exactly the remote list, a later entry for the same
      id replacing an earlier one. */
  function LikesOf(rs: seq<RemoteTrack>): map<string, Track> {
    if rs == [] then map[]
    else LikesOf(rs[..|rs| - 1])[rs[|rs| - 1].trackId := ToTrack(rs[|rs| - 1])]
  }

  /** The local likes after `syncLikesFromDatabase`: remote likes are only added, local ones win. */
  function MergeLikes(m: map<string, Track>, rs: seq<RemoteTrack>): map<string, Track> {
    if rs == [] then m
    else
      var m' := MergeLikes(m, rs[..|rs| - 1]);
      var t := ToTrack(rs[|rs| - 1]);
      if t.videoId in m' then m' else m'[t.videoId := t]
  }

  // ---------------------------------------------------------------------------------------------
  // The store

  class PlayerStore {
    var state: PlayerState
    var currentTrack: Option<Track>
    var queue: seq<Track>
    var volume: real
    var progress: real
    var duration: real
    var error: Option<string>
    var isPlayerVisible: bool
    var hasWidget: bool
    var widgetReady: bool
    const cache: LocalCache

    function View(): StoreView
      reads this
    {
      StoreView(state, currentTrack, queue, volume, progress, duration, error, isPlayerVisible,
                hasWidget, widgetReady)
    }

    /** The volume stays within [0, 1]. */
    ghost predicate Valid()
      reads this
    {
      0.0 <= volume <= 1.0
    }

    /** The in-memory queue and the cached queue agree. */
    ghost predicate Mirrored()
      reads this, cache
    {
      queue == cache.queue
    }

    constructor (c: LocalCache)
      ensures Valid() && cache == c
      ensures View() == StoreView(Idle, None, [], 1.0, 0.0, 0.0, None, false, false, false)
    {
      state, currentTrack, queue, volume, progress, duration := Idle, None, [], 1.0, 0.0, 0.0;
      error, isPlayerVisible, hasWidget, widgetReady := None, false, false, false;
      cache := c;
    }

    /** `init()`: restore the queue and the last played track without playing, and create the widget
        (which becomes ready later, see `OnReady`). The background pull-syncs it starts are
        `SyncFromDatabase` and `SyncLikesFromDatabase`. */
    method Init()
      requires Valid()
      modifies this
      ensures Valid() && Mirrored()
      ensures View() == old(View()).(queue := cache.queue, currentTrack := cache.lastPlayed, state := Idle,
                                     hasWidget := true)
    {
      queue, currentTrack, state := cache.queue, cache.lastPlayed, Idle;
      hasWidget := true;
    }

    /** The widget's `onReady` event. */
    method OnReady() returns (cmds: seq<Command>)
      requires Valid()
      modifies this
      ensures Valid()
      ensures View() == old(View()).(widgetReady := true)
      ensures cmds == [SetWidgetVolume(volume * 100.0)]
    {
      cmds := [SetWidgetVolume(volume * 100.0)];
      widgetReady := true;
    }

    /** The history push of `_playInternal`: the track being left goes on top of the history stack
        exactly when `HistoryPushed` says so; nothing else in the cache changes. */
    method RecordHistory(previous: Option<Track>, track: Track, skipHistory: bool, token: bool, historyOk: bool)
      modifies cache
      ensures cache.Data() == old(cache.Data()).(reverseQueue :=
        if HistoryPushed(skipHistory, previous, track, token, historyOk)
        then [previous.value] + old(cache.reverseQueue)
        else old(cache.reverseQueue))
    {
      if HistoryPushed(skipHistory, previous, track, token, historyOk) {
        cache.PushToReverseQueue(previous.value);
      }
    }

    method PlayInternal(track: Track, skipHistory: bool, token: bool, historyOk: bool, loadOk: bool)
      returns (cmds: seq<Command>)
      requires Valid()
      modifies this, cache
      ensures Valid()
      ensures old(Mirrored()) ==> Mirrored()
      ensures Outcome(View(), cache.Data(), cmds) ==
              PlayStep(old(View()), old(cache.Data()), track, skipHistory, token, historyOk, loadOk)
    {
      if !(hasWidget && widgetReady) {
        error := Some("Player not ready");
        return [];
      }
      ghost var out := PlayStep(View(), cache.Data(), track, skipHistory, token, historyOk, loadOk);
      RecordHistory(currentTrack, track, skipHistory, token, historyOk);
      var idx := FindIndexById(queue, track.videoId);
      queue := RemoveAt(queue, idx);
      cache.RemoveFromQueue(idx);
      currentTrack, progress, duration, isPlayerVisible := Some(track), 0.0, DurationOrZero(track), true;
      if loadOk {
        state, error := Loading, None;
        cmds := [LoadVideo(track.videoId)];
        cache.SetLastPlayed(track);
      } else {
        state, error := Error, Some("Failed to play track");
        cmds := [LoadVideo(track.videoId), ScheduleNext(2000)];
      }
      assert cache.Data() == out.cache;
      assert View() == out.view;
    }

    /** `play(track)`. */
    method Play(track: Track, token: bool, historyOk: bool, loadOk: bool) returns (cmds: seq<Command>)
      requires Valid()
      modifies this, cache
      ensures Valid()
      ensures old(Mirrored()) ==> Mirrored()
      ensures Outcome(View(), cache.Data(), cmds) ==
              PlayStep(old(View()), old(cache.Data()), track, false, token, historyOk, loadOk)
    {
      cmds := PlayInternal(track, false, token, historyOk, loadOk);
    }

    method TogglePlay(loadOk: bool) returns (cmds: seq<Command>)
      requires Valid()
      modifies this, cache
      ensures Valid()
      ensures old(Mirrored()) ==> Mirrored()
      ensures Outcome(View(), cache.Data(), cmds) == ToggleStep(old(View()), old(cache.Data()), loadOk)
    {
      if currentTrack.None? || !(hasWidget && widgetReady) {
        return [];
      }
      if state == Playing {
        cmds := [PauseVideo];
      } else if state == Paused {
        cmds := [PlayVideo];
      } else if state == Idle {
        cmds := Play(currentTrack.value, false, false, loadOk);
      } else {
        cmds := [];
      }
    }

    method Next(token: bool, historyOk: bool, loadOk: bool) returns (cmds: seq<Command>)
      requires Valid()
      modifies this, cache
      ensures Valid()
      ensures old(Mirrored()) ==> Mirrored()
      ensures Outcome(View(), cache.Data(), cmds) == NextStep(old(View()), old(cache.Data()), token, historyOk, loadOk)
    {
      if |queue| > 0 {
        cmds := Play(queue[0], token, historyOk, loadOk);
      } else {
        cmds := if hasWidget then [StopVideo] else [];
        state, currentTrack, progress, duration := Idle, None, 0.0, 0.0;
      }
    }

    method Seek(seconds: real) returns (cmds: seq<Command>)
      modifies this
      ensures Outcome(View(), cache.Data(), cmds) == SeekStep(old(View()), cache.Data(), seconds)
    {
      if hasWidget && widgetReady {
        cmds := [SeekTo(seconds)];
        progress := seconds;
      } else {
        cmds := [];
      }
    }

    method Prev(loadOk: bool) returns (cmds: seq<Command>)
      requires Valid()
      modifies this, cache
      ensures Valid()
      ensures old(Mirrored()) ==> Mirrored()
      ensures Outcome(View(), cache.Data(), cmds) == PrevStep(old(View()), old(cache.Data()), loadOk)
    {
      if progress > 3.0 {
        cmds := Seek(0.0);
        return;
      }
      if |cache.reverseQueue| == 0 {
        if currentTrack.Some? {
          cmds := Seek(0.0);
        } else {
          cmds := [];
        }
        return;
      }
      var top := cache.PopFromReverseQueue();
      var popped := top.value;
      if currentTrack.Some? && currentTrack.value.videoId != popped.videoId {
        var newQueue := [currentTrack.value] + queue;
        queue := newQueue;
        cache.ClearQueue();
        ghost var cleared, view := cache.Data(), View();
        for i := 0 to |newQueue|
          invariant cache.Data() == cleared.(queue := newQueue[..i])
          invariant View() == view
        {
          cache.AddToQueue(newQueue[i]);
          assert newQueue[..i + 1] == newQueue[..i] + [newQueue[i]];
        }
        assert newQueue[..|newQueue|] == newQueue;
      }
      cmds := PlayInternal(popped, true, false, false, loadOk);
    }

    /** `setVolume(level)`: the store keeps the clamped level and the widget gets it on its 0..100
        scale. */
    method SetVolume(level: real) returns (cmds: seq<Command>)
      modifies this
      ensures Valid()
      ensures View() == old(View()).(volume := Clamp01(level))
      ensures cmds == if hasWidget then [SetWidgetVolume(Clamp01(level) * 100.0)] else []
    {
      var clamped := Clamp01(level);
      cmds := if hasWidget then [SetWidgetVolume(clamped * 100.0)] else [];
      volume := clamped;
    }

    method AddToQueue(t: Track)
      modifies this, cache
      ensures old(Mirrored()) ==> Mirrored()
      ensures View() == old(View()).(queue := old(queue) + [t])
      ensures cache.Data() == old(cache.Data()).(queue := old(cache.queue) + [t])
    {
      queue := queue + [t];
      cache.AddToQueue(t);
    }

    method RemoveFromQueue(index: int)
      modifies this, cache
      ensures old(Mirrored()) ==> Mirrored()
      ensures View() == old(View()).(queue := RemoveAt(old(queue), index))
      ensures cache.Data() == old(cache.Data()).(queue := RemoveAt(old(cache.queue), index))
    {
      queue := RemoveAt(queue, index);
      cache.RemoveFromQueue(index);
    }

    method ClearQueue()
      modifies this, cache
      ensures Mirrored()
      ensures View() == old(View()).(queue := [])
      ensures cache.Data() == old(cache.Data()).(queue := [])
    {
      queue := [];
      cache.ClearQueue();
    }

    /** `like(track)`: a signed-in like is mirrored locally only after the remote write succeeded
        (`ok` false also stands for a request that threw); a guest like is local only. */
    method Like(t: Track, token: bool, ok: bool)
      modifies cache
      ensures cache.Data() == if !token || ok then old(cache.Data()).(liked := old(cache.liked)[t.videoId := t])
                              else old(cache.Data())
    {
      if token {
        if ok {
          cache.LikeSong(t);
        }
      } else {
        cache.LikeSong(t);
      }
    }

    method Unlike(videoId: string, token: bool, ok: bool)
      modifies cache
      ensures cache.Data() == if !token || ok then old(cache.Data()).(liked := old(cache.liked) - {videoId})
                              else old(cache.Data())
    {
      if token {
        if ok {
          cache.UnlikeSong(videoId);
        }
      } else {
        cache.UnlikeSong(videoId);
      }
    }

    /** `syncLikesFromDatabase()`: adds the remote likes that are not liked locally. */
    method SyncLikesFromDatabase(token: bool, ok: bool, dbLikes: seq<RemoteTrack>)
      modifies cache
      ensures cache.Data() == if token && ok then old(cache.Data()).(liked := MergeLikes(old(cache.liked), dbLikes))
                              else old(cache.Data())
    {
      if !token || !ok {
        return;
      }
      for i := 0 to |dbLikes|
        invariant cache.Data() == old(cache.Data()).(liked := MergeLikes(old(cache.liked), dbLikes[..i]))
      {
        assert dbLikes[..i + 1][..i] == dbLikes[..i];
        var t := ToTrack(dbLikes[i]);
        if !cache.IsLiked(t.videoId) {
          cache.LikeSong(t);
        }
      }
      assert dbLikes[..|dbLikes|] == dbLikes;
    }

    /** `syncFromDatabase()`: with a token, an ok likes response replaces the local likes with the
        remote list and an ok history response rebuilds the history stack from the server's list
        (newest first), pushing it oldest first so the newest ends on top. */
    method SyncFromDatabase(token: bool, likesOk: bool, dbLikes: seq<RemoteTrack>,
                            historyOk: bool, dbHistory: seq<RemoteTrack>)
      modifies cache
      ensures !token ==> cache.Data() == old(cache.Data())
      ensures token ==> cache.Data() == old(cache.Data()).(
        liked := if likesOk then LikesOf(dbLikes) else old(cache.liked),
        reverseQueue := if historyOk then ToTracks(dbHistory) else old(cache.reverseQueue))
    {
      if !token {
        return;
      }
      if likesOk {
        var ids := cache.liked.Keys;
        while ids != {}
          invariant cache.liked.Keys == ids
          invariant cache.Data() == old(cache.Data()).(liked := cache.liked)
          decreases ids
        {
          var id :| id in ids;
          cache.UnlikeSong(id);
          ids := ids - {id};
        }
        assert cache.liked == map[];
        for i := 0 to |dbLikes|
          invariant cache.Data() == old(cache.Data()).(liked := LikesOf(dbLikes[..i]))
        {
          assert dbLikes[..i + 1][..i] == dbLikes[..i];
          cache.LikeSong(ToTrack(dbLikes[i]));
        }
        assert dbLikes[..|dbLikes|] == dbLikes;
      }
      if historyOk {
        ghost var before := cache.Data();
        cache.ClearReverseQueue();
        var i := |dbHistory|;
        while i > 0
          invariant 0 <= i <= |dbHistory|
          invariant cache.Data() == before.(reverseQueue := ToTracks(dbHistory[i..]))
        {
          i := i - 1;
          cache.PushToReverseQueue(ToTrack(dbHistory[i]));
          assert ToTracks(dbHistory[i..]) == [ToTrack(dbHistory[i])] + ToTracks(dbHistory[i + 1..]);
        }
      }
    }

    /** `onStateChange`. */
    method OnStateChange(ws: WidgetState, visibility: Visibility, token: bool, historyOk: bool, loadOk: bool)
      returns (cmds: seq<Command>)
      requires Valid()
      modifies this, cache
      ensures Valid()
      ensures old(Mirrored()) ==> Mirrored()
      ensures Outcome(View(), cache.Data(), cmds) ==
              StateChangeStep(old(View()), old(cache.Data()), ws, visibility, token, historyOk, loadOk)
    {
      match ws
      case WidgetPlaying =>
        state, error := Playing, None;
        cmds := [];
      case WidgetPaused =>
        if visibility == Visible {
          state := Paused;
          cmds := [];
        } else {
          cmds := [ScheduleForceResume(50), ScheduleForceResume(100), ScheduleForceResume(200)];
        }
      case Buffering =>
        state := Loading;
        cmds := [];
      case Ended =>
        cmds := Next(token, historyOk, loadOk);
      case _ =>
        cmds := [];
    }

    /** The progress-tracking loop, one frame: while playing it copies the widget's time and duration
        (`|| 0`) into the store. */
    method TrackProgress(currentTime: real, widgetDuration: real)
      modifies this
      ensures View() == if old(state) == Playing && old(hasWidget)
                        then old(View()).(progress := currentTime, duration := widgetDuration)
                        else old(View())
    {
      if state == Playing && hasWidget {
        progress, duration := currentTime, widgetDuration;
      }
    }

    /** The widget's `onError` event: error state, and `next()` two seconds later. */
    method OnError() returns (cmds: seq<Command>)
      modifies this
      ensures View() == old(View()).(state := Error, error := Some("Playback error"))
      ensures cmds == [ScheduleNext(2000)]
    {
      state, error := Error, Some("Playback error");
      cmds := [ScheduleNext(2000)];
    }

    /** One of the delayed resumes scheduled after a pause reported while hidden: it resumes only if
        the store still means to play. */
    method ForceResume() returns (cmds: seq<Command>)
      ensures cmds == [PlayVideo] <==> state == Playing
      ensures cmds == [] <==> state != Playing
    {
      cmds := if state == Playing then [PlayVideo] else [];
    }

    /** The once-a-second watchdog: it resumes the widget only when the store means to play, the
        widget is ready, the page is hidden and the widget reports paused; it never changes the store. */
    method Watchdog(visibility: Visibility, ws: WidgetState) returns (cmds: seq<Command>)
      ensures cmds == [] || cmds == [PlayVideo]
      ensures cmds == [PlayVideo] <==>
        state == Playing && hasWidget && widgetReady && visibility == Hidden && ws == WidgetPaused
    {
      if state == Playing && hasWidget && widgetReady && visibility == Hidden {
        if ws == WidgetPaused {
          return [PlayVideo];
        }
      }
      return [];
    }

    /** `visibilitychange`: when the page is hidden the check runs 80 ms later, when it is visible at
        once; either way it resumes a widget that reports paused while the store means to play. `ws` is
        what the widget reports when the check runs. */
    method OnVisibilityChange(visibility: Visibility, ws: WidgetState) returns (delayMs: nat, cmds: seq<Command>)
      ensures delayMs == if visibility == Hidden then 80 else 0
      ensures cmds == [] || cmds == [PlayVideo]
      ensures cmds == [PlayVideo] <==> state == Playing && hasWidget && ws == WidgetPaused
    {
      delayMs := if visibility == Hidden then 80 else 0;
      cmds := if state == Playing && hasWidget && ws == WidgetPaused then [PlayVideo] else [];
    }

    /** The page lifecycle `resume` event: when the store is playing with a widget, the same resume
        check 50 ms later; otherwise nothing is scheduled (`delayMs == 0`, no command). */
    method OnPageResume(ws: WidgetState) returns (delayMs: nat, cmds: seq<Command>)
      ensures delayMs == if state == Playing && hasWidget then 50 else 0
      ensures cmds == [] || cmds == [PlayVideo]
      ensures cmds == [PlayVideo] <==> state == Playing && hasWidget && ws == WidgetPaused
    {
      delayMs := if state == Playing && hasWidget then 50 else 0;
      cmds := if state == Playing && hasWidget && ws == WidgetPaused then [PlayVideo] else [];
    }
  }
}
