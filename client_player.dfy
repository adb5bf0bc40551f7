/** The playback store of the standalone client (client/src/services/player.ts). It plays through an
    audio element when the stream endpoint returns a URL, and falls back to a hidden widget when it
    answers with the `iframe` source. There is no history: `prev` only restarts the track.

    As in the web client's player, each state-changing operation is a class method specified by a
    pure step function over a snapshot of the store and the cache. */
module ClientPlayer {
  import opened Common
  import opened Cache

  datatype PlayerState = Idle | Loading | Playing | Paused | Error

  /** What the stream endpoint gave: a failure (a non-ok response or a request that threw), the
      widget fallback, or a direct audio URL. */
  datatype Stream = StreamFailed | IframeSource | AudioUrl(url: string)

  datatype WidgetState = Unstarted | Ended | WidgetPlaying | WidgetPaused | Buffering | Cued

  /** What the store does to the audio element and the widget, and what it schedules. */
  datatype Effect =
    | StopAudio                 // pause, rewind, clear the source, reload
    | DestroyWidget             // stop and destroy the widget, clearing its progress timer
    | CreateWidget(videoId: string)
    | SetAudioSource(url: string)
    | PlayAudio
    | PauseAudio
    | PlayWidget
    | PauseWidget
    | SeekAudio(seconds: real)
    | SeekWidget(seconds: real)
    | SetAudioVolume(level: real)
    | SetWidgetVolume(level: real)
    | ScheduleNext(delayMs: nat)

  /** A snapshot of the store. `hasAudio` is `audio !== null`, `audioHasSource` is the truthiness of
      `audio.src`, `hasWidget` is `ytPlayer !== null`. The `src` property reads back as a URL resolved
      against the page, so once anything has been assigned to it, even the empty string that stops
      playback, it stays truthy: `audioHasSource` is false only before the first assignment. */
  datatype ClientView = ClientView(
    state: PlayerState,
    currentTrack: Option<Track>,
    queue: seq<Track>,
    volume: real,
    progress: real,
    duration: real,
    error: Option<string>,
    hasAudio: bool,
    audioHasSource: bool,
    hasWidget: bool)

  datatype Outcome = Outcome(view: ClientView, cache: CacheData, effects: seq<Effect>)

  const PlayFailedMessage := "Failed to play track. Trying next..."

  /** The effects that end whatever is playing: the audio source is cleared and the widget destroyed. */
  function Terminate(v: ClientView): seq<Effect> {
    (if v.hasAudio && v.audioHasSource then [StopAudio] else []) + (if v.hasWidget then [DestroyWidget] else [])
  }

  /** `play(track)`. `playOk` is whether `audio.play()` resolved (it only matters for an audio URL). */
  function PlayStep(v: ClientView, c: CacheData, track: Track, stream: Stream, playOk: bool): Outcome {
    if !v.hasAudio then Outcome(v, c, [])
    else
      var stop := Terminate(v);
      var idx := FindIndexById(v.queue, track.videoId);
      var v1 := Started(v, track);
      var c1 := c.(queue := RemoveAt(c.queue, idx));
      match stream
      case StreamFailed =>
        Outcome(v1.(state := Error, error := Some(PlayFailedMessage)), c1, stop + [ScheduleNext(2000)])
      case IframeSource =>
        Outcome(v1, c1.(lastPlayed := Some(track)), stop + [CreateWidget(track.videoId)])
      case AudioUrl(url) =>
        var v2 := v1.(audioHasSource := true);
        if playOk then Outcome(v2, c1.(lastPlayed := Some(track)), stop + [SetAudioSource(url), PlayAudio])
        else Outcome(v2.(state := Error, error := Some(PlayFailedMessage)), c1,
                     stop + [SetAudioSource(url), PlayAudio, ScheduleNext(2000)])
  }

  /** The store once `play(track)` has stopped the old source and taken the track off the queue. */
  function Started(v: ClientView, track: Track): ClientView {
    v.(state := Loading, currentTrack := Some(track), error := None, progress := 0.0,
       duration := DurationOrZero(track), hasWidget := false,
       queue := RemoveAt(v.queue, FindIndexById(v.queue, track.videoId)))
  }

  /** `next()`. */
  function NextStep(v: ClientView, c: CacheData, stream: Stream, playOk: bool): Outcome {
    if |v.queue| > 0 then PlayStep(v, c, v.queue[0], stream, playOk)
    else
      Outcome(v.(state := Idle, currentTrack := None, progress := 0.0, duration := 0.0, hasWidget := false),
              c, Terminate(v))
  }

  /** `seek(seconds)`: the widget if there is one, else the audio element; the store's progress
      follows from the next time update. */
  function SeekEffects(v: ClientView, seconds: real): seq<Effect> {
    if v.hasWidget then [SeekWidget(seconds)] else if v.hasAudio then [SeekAudio(seconds)] else []
  }

  /** `togglePlay()`. A paused or stopped store with nothing loaded plays its current track again. */
  function ToggleStep(v: ClientView, c: CacheData, stream: Stream, playOk: bool): Outcome {
    if v.currentTrack.None? then Outcome(v, c, [])
    else if v.state == Playing then
      Outcome(v, c, if v.hasWidget then [PauseWidget] else if v.hasAudio then [PauseAudio] else [])
    else if !((v.hasAudio && v.audioHasSource) || v.hasWidget) then
      PlayStep(v, c, v.currentTrack.value, stream, playOk)
    else
      Outcome(v, c, if v.hasWidget then [PlayWidget] else [PlayAudio])
  }

  /** The widget's `onStateChange` event. */
  function WidgetStateStep(v: ClientView, c: CacheData, ws: WidgetState, stream: Stream, playOk: bool): Outcome {
    match ws
    case WidgetPlaying => Outcome(v.(state := Playing), c, [])
    case WidgetPaused => Outcome(v.(state := Paused), c, [])
    case Ended => NextStep(v, c, stream, playOk)
    case _ => Outcome(v, c, [])
  }

  class ClientPlayerStore {
    var state: PlayerState
    var currentTrack: Option<Track>
    var queue: seq<Track>
    var volume: real
    var progress: real
    var duration: real
    var error: Option<string>
    var hasAudio: bool
    var audioHasSource: bool
    var hasWidget: bool
    const cache: LocalCache

    function View(): ClientView
      reads this
    {
      ClientView(state, currentTrack, queue, volume, progress, duration, error, hasAudio, audioHasSource, hasWidget)
    }

    ghost predicate Valid()
      reads this
    {
      0.0 <= volume <= 1.0
    }

    constructor (c: LocalCache)
      ensures Valid() && cache == c
      ensures View() == ClientView(Idle, None, [], 0.7, 0.0, 0.0, None, false, false, false)
    {
      state, currentTrack, queue, volume, progress, duration := Idle, None, [], 0.7, 0.0, 0.0;
      error, hasAudio, audioHasSource, hasWidget := None, false, false, false;
      cache := c;
    }

    /** `init()`: create the audio element at volume 0.7 and restore the queue and the last track. */
    method Init() returns (effects: seq<Effect>)
      modifies this
      ensures View() == old(View()).(hasAudio := true, audioHasSource := false, queue := cache.queue,
                                     currentTrack := cache.lastPlayed)
      ensures effects == [SetAudioVolume(0.7)]
    {
      hasAudio, audioHasSource := true, false;
      queue, currentTrack := cache.queue, cache.lastPlayed;
      effects := [SetAudioVolume(0.7)];
    }

    /** The part of `play(track)` before the stream is chosen. */
    method Start(track: Track) returns (stop: seq<Effect>)
      modifies this, cache
      ensures View() == Started(old(View()), track) && stop == Terminate(old(View()))
      ensures cache.Data() == old(cache.Data()).(queue := RemoveAt(old(cache.queue), FindIndexById(old(queue), track.videoId)))
    {
      stop := Terminate(View());
      var idx := FindIndexById(queue, track.videoId);
      queue := RemoveAt(queue, idx);
      cache.RemoveFromQueue(idx);
      state, currentTrack, error, progress, duration := Loading, Some(track), None, 0.0, DurationOrZero(track);
      hasWidget := false;
    }

    method Play(track: Track, stream: Stream, playOk: bool) returns (effects: seq<Effect>)
      requires Valid()
      modifies this, cache
      ensures Valid()
      ensures Outcome(View(), cache.Data(), effects) == PlayStep(old(View()), old(cache.Data()), track, stream, playOk)
    {
      if !hasAudio {
        return [];
      }
      ghost var out := PlayStep(View(), cache.Data(), track, stream, playOk);
      effects := Start(track);
      match stream
      case StreamFailed =>
        state, error := Error, Some(PlayFailedMessage);
        effects := effects + [ScheduleNext(2000)];
      case IframeSource =>
        effects := effects + [CreateWidget(track.videoId)];
        cache.SetLastPlayed(track);
      case AudioUrl(url) =>
        audioHasSource := true;
        effects := effects + [SetAudioSource(url), PlayAudio];
        if playOk {
          cache.SetLastPlayed(track);
        } else {
          state, error := Error, Some(PlayFailedMessage);
          effects := effects + [ScheduleNext(2000)];
        }
      assert cache.Data() == out.cache;
      assert View() == out.view;
    }

    method TogglePlay(stream: Stream, playOk: bool) returns (effects: seq<Effect>)
      requires Valid()
      modifies this, cache
      ensures Valid()
      ensures Outcome(View(), cache.Data(), effects) == ToggleStep(old(View()), old(cache.Data()), stream, playOk)
    {
      if currentTrack.None? {
        return [];
      }
      if state == Playing {
        effects := if hasWidget then [PauseWidget] else if hasAudio then [PauseAudio] else [];
      } else if !((hasAudio && audioHasSource) || hasWidget) {
        effects := Play(currentTrack.value, stream, playOk);
      } else {
        effects := if hasWidget then [PlayWidget] else [PlayAudio];
      }
    }

    method Next(stream: Stream, playOk: bool) returns (effects: seq<Effect>)
      requires Valid()
      modifies this, cache
      ensures Valid()
      ensures Outcome(View(), cache.Data(), effects) == NextStep(old(View()), old(cache.Data()), stream, playOk)
    {
      if |queue| > 0 {
        effects := Play(queue[0], stream, playOk);
      } else {
        effects := Terminate(View());
        state, currentTrack, progress, duration, hasWidget := Idle, None, 0.0, 0.0, false;
      }
    }

    method Seek(seconds: real) returns (effects: seq<Effect>)
      ensures effects == SeekEffects(View(), seconds)
      ensures hasWidget ==> effects == [SeekWidget(seconds)]
      ensures !hasWidget && hasAudio ==> effects == [SeekAudio(seconds)]
    {
      if hasWidget {
        effects := [SeekWidget(seconds)];
      } else if hasAudio {
        effects := [SeekAudio(seconds)];
      } else {
        effects := [];
      }
    }

    /** `prev()`: both branches restart the current track. */
    method Prev() returns (effects: seq<Effect>)
      ensures effects == SeekEffects(View(), 0.0)
    {
      if progress > 3.0 {
        effects := Seek(0.0);
        return;
      }
      effects := Seek(0.0);
    }

    method SetVolume(level: real) returns (effects: seq<Effect>)
      modifies this
      ensures Valid()
      ensures View() == old(View()).(volume := Clamp01(level))
      ensures effects == if hasWidget then [SetWidgetVolume(Clamp01(level) * 100.0)]
                         else if hasAudio then [SetAudioVolume(Clamp01(level))] else []
    {
      var clamped := Clamp01(level);
      effects := if hasWidget then [SetWidgetVolume(clamped * 100.0)]
                 else if hasAudio then [SetAudioVolume(clamped)] else [];
      volume := clamped;
    }

    method AddToQueue(t: Track)
      modifies this, cache
      ensures View() == old(View()).(queue := old(queue) + [t])
      ensures cache.Data() == old(cache.Data()).(queue := old(cache.queue) + [t])
    {
      queue := queue + [t];
      cache.AddToQueue(t);
    }

    method RemoveFromQueue(index: int)
      modifies this, cache
      ensures View() == old(View()).(queue := RemoveAt(old(queue), index))
      ensures cache.Data() == old(cache.Data()).(queue := RemoveAt(old(cache.queue), index))
    {
      queue := RemoveAt(queue, index);
      cache.RemoveFromQueue(index);
    }

    method ClearQueue()
      modifies this, cache
      ensures View() == old(View()).(queue := [])
      ensures cache.Data() == old(cache.Data()).(queue := [])
    {
      queue := [];
      cache.ClearQueue();
    }

    /** Likes are local only in this client. */
    method Like(t: Track)
      modifies cache
      ensures cache.Data() == old(cache.Data()).(liked := old(cache.liked)[t.videoId := t])
    {
      cache.LikeSong(t);
    }

    method Unlike(videoId: string)
      modifies cache
      ensures cache.Data() == old(cache.Data()).(liked := old(cache.liked) - {videoId})
    {
      cache.UnlikeSong(videoId);
    }

    /** The audio element's `timeupdate` event; a duration that is not a number reads as 0. */
    method OnTimeUpdate(currentTime: real, audioDuration: Option<real>)
      modifies this
      ensures View() == old(View()).(progress := currentTime, duration := audioDuration.GetOr(0.0))
    {
      progress, duration := currentTime, audioDuration.GetOr(0.0);
    }

    /** The audio element's `playing` event. */
    method OnAudioPlaying()
      modifies this
      ensures View() == old(View()).(state := Playing, error := None)
    {
      state, error := Playing, None;
    }

    /** The audio element's `pause` event. Clearing the source while a new track loads pauses the
        element too; that pause is not taken for the user's. */
    method OnAudioPause()
      modifies this
      ensures View() == if old(state) == Loading then old(View()) else old(View()).(state := Paused)
    {
      if state != Loading {
        state := Paused;
      }
    }

    /** The audio element's `error` event: unlike a failed `play`, it does not skip ahead. */
    method OnAudioError()
      modifies this
      ensures View() == old(View()).(state := Error, error := Some("Failed to load audio"))
    {
      state, error := Error, Some("Failed to load audio");
    }

    /** The audio element's `ended` event. */
    method OnAudioEnded(stream: Stream, playOk: bool) returns (effects: seq<Effect>)
      requires Valid()
      modifies this, cache
      ensures Valid()
      ensures Outcome(View(), cache.Data(), effects) == NextStep(old(View()), old(cache.Data()), stream, playOk)
    {
      effects := Next(stream, playOk);
    }

    /** The widget's `onReady` event: only now does the store hold the widget and count as playing. */
    method OnWidgetReady(widgetDuration: real) returns (effects: seq<Effect>)
      modifies this
      ensures View() == old(View()).(state := Playing, duration := widgetDuration, hasWidget := true)
      ensures effects == [SetWidgetVolume(volume * 100.0)]
    {
      state, duration, hasWidget := Playing, widgetDuration, true;
      effects := [SetWidgetVolume(volume * 100.0)];
    }

    /** The widget's progress timer, every 100 ms once it is ready. */
    method OnWidgetProgress(currentTime: real, widgetDuration: real)
      modifies this
      ensures View() == old(View()).(progress := currentTime, duration := widgetDuration)
    {
      progress, duration := currentTime, widgetDuration;
    }

    method OnWidgetStateChange(ws: WidgetState, stream: Stream, playOk: bool) returns (effects: seq<Effect>)
      requires Valid()
      modifies this, cache
      ensures Valid()
      ensures Outcome(View(), cache.Data(), effects) == WidgetStateStep(old(View()), old(cache.Data()), ws, stream, playOk)
    {
      match ws
      case WidgetPlaying =>
        state := Playing;
        effects := [];
      case WidgetPaused =>
        state := Paused;
        effects := [];
      case Ended =>
        effects := Next(stream, playOk);
      case _ =>
        effects := [];
    }
  }

  // ---------------------------------------------------------------------------------------------
  // Properties

  /** Playing stops what was playing first: the effects start with the termination of the old
      source, and afterwards no widget is held (a new one only counts once it reports ready). */
  lemma PlayTerminatesFirst(v: ClientView, c: CacheData, t: Track, stream: Stream, playOk: bool)
    requires v.hasAudio
    ensures var o := PlayStep(v, c, t, stream, playOk);
      o.effects[..|Terminate(v)|] == Terminate(v) && !o.view.hasWidget
      && (v.audioHasSource ==> o.effects[0] == StopAudio)
      && (v.hasWidget ==> DestroyWidget in o.effects)
      && o.view.currentTrack == Some(t) && o.view.progress == 0.0
  {
    var o := PlayStep(v, c, t, stream, playOk);
    assert o.effects[..|Terminate(v)|] == Terminate(v);
    if v.hasWidget {
      assert Terminate(v)[|Terminate(v)| - 1] == DestroyWidget;
      assert o.effects[|Terminate(v)| - 1] == DestroyWidget;
    }
  }

  /** A playback that could not start reports the error, keeps the last played track, and schedules
      `next` two seconds later; one that started records the track as last played. */
  lemma PlayOutcome(v: ClientView, c: CacheData, t: Track, stream: Stream, playOk: bool)
    requires v.hasAudio
    ensures var o := PlayStep(v, c, t, stream, playOk);
      var failed := stream.StreamFailed? || (stream.AudioUrl? && !playOk);
      (failed <==> o.view.state == Error)
      && (failed ==> o.view.error == Some(PlayFailedMessage) && o.effects[|o.effects| - 1] == ScheduleNext(2000)
                     && o.cache.lastPlayed == c.lastPlayed)
      && (!failed ==> o.view.state == Loading && o.view.error.None? && o.cache.lastPlayed == Some(t)
                      && ScheduleNext(2000) !in o.effects)
      && o.view.currentTrack == Some(t) && o.view.progress == 0.0 && o.view.duration == DurationOrZero(t)
  {
  }

  /** Without an audio element, `play` does nothing at all. */
  lemma PlayWithoutAudio(v: ClientView, c: CacheData, t: Track, stream: Stream, playOk: bool)
    requires !v.hasAudio
    ensures PlayStep(v, c, t, stream, playOk) == Outcome(v, c, [])
  {
  }

  /** Playing takes the first occurrence of the track out of the queue and keeps the rest in order;
      the cached queue loses the same index. Exactly one occurrence of the id goes, and no other id's
      count changes. */
  lemma PlayRemovesFirstOccurrence(v: ClientView, c: CacheData, t: Track, stream: Stream, playOk: bool, other: string)
    requires v.hasAudio
    ensures var o := PlayStep(v, c, t, stream, playOk);
      RemovedFirst(v.queue, c.queue, t.videoId, o.view.queue, o.cache.queue)
      && CountId(o.view.queue, other) ==
        (if other == t.videoId && CountId(v.queue, other) > 0 then CountId(v.queue, other) - 1 else CountId(v.queue, other))
      && (v.queue == c.queue ==> o.cache.queue == o.view.queue)
  {
    FirstIndexRemoval(v.queue, c.queue, t.videoId);
    RemoveFirstByIdCount(v.queue, t.videoId, other);
  }

  /** `next` on an empty queue ends playback entirely. */
  lemma NextOnEmptyQueueStops(v: ClientView, c: CacheData, stream: Stream, playOk: bool)
    requires v.queue == []
    ensures var o := NextStep(v, c, stream, playOk);
      o.view.state == Idle && o.view.currentTrack.None? && !o.view.hasWidget
      && o.view.progress == 0.0 && o.view.duration == 0.0 && o.view.queue == []
      && o.cache == c && o.effects == Terminate(v)
  {
  }

  /** `next` with a non-empty queue stops what was playing and plays the head of the queue, which
      leaves both queues; the rest of the queue stays in order. */
  lemma NextPlaysHead(v: ClientView, c: CacheData, stream: Stream, playOk: bool)
    requires v.hasAudio && |v.queue| > 0
    ensures var o := NextStep(v, c, stream, playOk);
      o.view.currentTrack == Some(v.queue[0]) && o.view.queue == v.queue[1..]
      && o.cache.queue == RemoveAt(c.queue, 0) && (v.queue == c.queue ==> o.cache.queue == o.view.queue)
      && o.view.progress == 0.0 && o.view.duration == DurationOrZero(v.queue[0])
      && o.effects[..|Terminate(v)|] == Terminate(v)
  {
    assert FindIndexById(v.queue, v.queue[0].videoId) == 0;
    PlayTerminatesFirst(v, c, v.queue[0], stream, playOk);
  }

  /** Toggling while playing pauses whichever back end is active and changes nothing in the store. */
  lemma TogglePauses(v: ClientView, c: CacheData, stream: Stream, playOk: bool)
    requires v.currentTrack.Some? && v.state == Playing && (v.hasAudio || v.hasWidget)
    ensures var o := ToggleStep(v, c, stream, playOk);
      o.view == v && o.cache == c && (o.effects == [PauseWidget] || o.effects == [PauseAudio])
      && (o.effects == [PauseWidget] <==> v.hasWidget)
  {
  }

  /** Toggling a paused store with nothing loaded plays its current track again from the start. This
      only happens before the audio element was ever given a source (see `ToggleAfterAudioResumes`). */
  lemma ToggleReloads(v: ClientView, c: CacheData, stream: Stream, playOk: bool)
    requires v.currentTrack.Some? && v.state != Playing && v.hasAudio && !v.audioHasSource && !v.hasWidget
    ensures ToggleStep(v, c, stream, playOk) == PlayStep(v, c, v.currentTrack.value, stream, playOk)
  {
  }

  /** Once the audio element has been given a source, clearing it does not make it read as empty:
      after any audio play, and after stopping one, toggling a store that is not playing resumes the
      audio element instead of reloading the track. */
  lemma ToggleAfterAudioResumes(v: ClientView, c: CacheData, t: Track, url: string, playOk: bool,
                                c2: CacheData, stream: Stream, ok2: bool)
    requires v.hasAudio
    ensures var o := PlayStep(v, c, t, AudioUrl(url), playOk);
      o.view.audioHasSource && !o.view.hasWidget
      && (o.view.state != Playing ==> ToggleStep(o.view, c2, stream, ok2) == Outcome(o.view, c2, [PlayAudio]))
    ensures var n := NextStep(v, c, stream, ok2);
      v.audioHasSource && v.queue == [] ==> n.view.audioHasSource && StopAudio in n.effects
  {
    if v.audioHasSource && v.queue == [] {
      assert NextStep(v, c, stream, ok2).effects[0] == StopAudio;
    }
  }
}
