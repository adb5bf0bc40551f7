# Cantio in Dafny

Cantio is a music player. A browser client plays videos through an embedded widget, keeps a
forward queue, a history stack ("reverse queue") and a set of liked tracks in a local cache, and
mirrors them to a backend. The backend holds playlists, two-person "blends" and listening
history. This project models the parts that carry rules:

- the web client's playback store (`Player`, `PlayerFacts`): the state machine, queue and history,
  widget events, the background resume decisions, likes and the two pull-syncs;
- the standalone client's simpler store (`ClientPlayer`);
- the local cache both stores write through (`Cache`);
- the local-to-cloud sync route (`SyncRoute`);
- the lyrics helpers (`Lyrics`): the `[mm:ss.xx]` parser, the current-line search and the
  choice of search result;
- the client playlist and blend stores (`PlaylistStore`, `BlendStore`);
- the backend blend routes (`BlendsRoute`) with the track generator (`BlendTracks`), the playlist
  routes (`PlaylistsRoute`) and the recommendations route (`Recommendations`);
- two shared modules: `Common` (options, index removal, clamping, throttling) and `OrderedMap`,
  which models a JavaScript `Map`, including its insertion order.

Stores whose fields change in place are classes. Each method is specified against a pure step
function or states its whole new state, and the lemmas about the step functions carry the
properties. Everything outside the program becomes a parameter:

- whether a token is present;
- whether a response was ok, and the server's error message;
- the widget's reported state, and whether the page is visible;
- the clock;
- the results of database queries;
- which database call fails;
- `Math.random`, as a function from draw number to a real in [0, 1).

Times in the lyrics are integer hundredths of a second. The sync route's recommendation scores
are integer halves.

## Model

| member | source | states |
|---|---|---|
| Common.FindIndexById | vercel-serverless/frontend/src/services/player.ts:379-381 | `findIndex` by video id: -1 exactly when no entry has the id, otherwise the first index that has it |
| Common.RemoveAt | vercel-serverless/frontend/src/services/player.ts:567-572 | `splice(i, 1)`: an index in range removes exactly that entry and keeps the order of the rest; an index out of range changes nothing |
| Common.RemoveFirstByIdCount | vercel-serverless/frontend/src/services/player.ts:379-387 | removing by the first index takes away exactly one occurrence of the id, when there is one, and leaves the count of every other id unchanged |
| Common.RemoveFirstByIdClears | vercel-serverless/frontend/src/services/player.ts:379-387 | after the removal the id is gone from the queue exactly when it occurred at most once |
| Common.RemoveWhere | vercel-serverless/frontend/src/lib/playlistStore.ts:228 | `filter(p => p.id !== id)`: an element survives exactly when its key differs; nothing is added |
| Common.Clamp01 | vercel-serverless/frontend/src/services/player.ts:549-558 | `Math.max(0, Math.min(1, v))`: the result is in [0, 1], equals `v` inside it and the nearer bound outside it |
| Common.ErrorMessage | vercel-serverless/frontend/src/lib/playlistStore.ts:150-153 | `error.error \|\| fallback`: the server's message when it is non-empty, otherwise the fallback |
| Common.ThrottleWindow | vercel-serverless/frontend/src/lib/playlistStore.ts:74 | a fetch is skipped exactly when it is not forced, a non-zero last fetch time is recorded, and less than the window has passed since it |
| OrderedMap.Set | vercel-serverless/backend/src/routes/recommendations.ts:114-116 | `Map.set`: the key maps to the new value, other keys keep theirs, an existing key keeps its place and a new key goes last |
| OrderedMap.BuildSpec | vercel-serverless/backend/src/routes/recommendations.ts:46-54 | `new Map(pairs)`: the keys are the distinct keys of the pairs in order of first occurrence, and each maps to the value of its last occurrence |
| OrderedMap.BuildKeepsPairs | vercel-serverless/backend/src/routes/recommendations.ts:46-54 | a property that every input pair has also holds for every entry of the built map |
| OrderedMap.FirstOccurrencesDistinct | vercel-serverless/backend/src/routes/recommendations.ts:46-54 | the keys of the built map never repeat |
| OrderedMap.InKeysGet | vercel-serverless/backend/src/routes/recommendations.ts:113-116 | `has(k)` exactly when `get(k)` gives a value |
| Cache.LocalCache.AddToQueue | vercel-serverless/frontend/src/services/player.ts:564 | the cached queue gains the track at its end and nothing else changes |
| Cache.LocalCache.RemoveFromQueue | vercel-serverless/frontend/src/services/player.ts:571 | the cached queue loses index `i` when it is in range, and nothing else changes |
| Cache.LocalCache.ClearQueue | vercel-serverless/frontend/src/services/player.ts:576 | the cached queue becomes empty and nothing else changes |
| Cache.LocalCache.PushToReverseQueue | vercel-serverless/frontend/src/services/player.ts:360 | the track goes on top of the history stack |
| Cache.LocalCache.PopFromReverseQueue | vercel-serverless/frontend/src/services/player.ts:510 | an empty stack gives nothing and stays empty; otherwise the top is returned and removed |
| Cache.LocalCache.ClearReverseQueue | vercel-serverless/frontend/src/services/player.ts:768 | the history stack becomes empty |
| Cache.LocalCache.LikeSong | vercel-serverless/frontend/src/services/player.ts:603 | the liked map gains or overwrites the track's entry |
| Cache.LocalCache.UnlikeSong | vercel-serverless/frontend/src/services/player.ts:634 | the liked map loses that id |
| Cache.LocalCache.SetLastPlayed | vercel-serverless/frontend/src/services/player.ts:415 | the last played track is recorded |
| Player.ToTracks | vercel-serverless/frontend/src/services/player.ts:743-751 | every remote row becomes a track with the same id, `thumbnail \|\| ''` and `duration \|\| 0` |
| Player.PlayerStore.Init | vercel-serverless/frontend/src/services/player.ts:80-139 | the queue and the last played track are restored from the cache, nothing plays, and the in-memory queue mirrors the cached one |
| Player.PlayerStore.OnReady | vercel-serverless/frontend/src/services/player.ts:177-181 | the widget becomes ready and receives the store's volume on its 0..100 scale |
| Player.PlayerStore.RecordHistory | vercel-serverless/frontend/src/services/player.ts:336-370 | the track being left goes on top of the history stack only when not going back, a different track was current, and (signed in) the history request came back ok; nothing else in the cache changes |
| Player.PlayerStore.PlayInternal | vercel-serverless/frontend/src/services/player.ts:324-426 | the store, the cache and the widget commands after `_playInternal` are the play step's; the queue mirror and the volume bound are kept |
| Player.PlayerStore.Play | vercel-serverless/frontend/src/services/player.ts:319-322 | `play(track)` is `_playInternal(track, false)` |
| Player.PlayerStore.TogglePlay | vercel-serverless/frontend/src/services/player.ts:428-443 | the outcome is the toggle step's (see `PlayerFacts.ToggleRules`) |
| Player.PlayerStore.Next | vercel-serverless/frontend/src/services/player.ts:445-477 | the outcome is the next step's (see `PlayerFacts.NextPlaysHead`, `PlayerFacts.NextOnEmptyQueueStops`) |
| Player.PlayerStore.Seek | vercel-serverless/frontend/src/services/player.ts:540-547 | with a ready widget the progress becomes the argument, with no clamping, and the widget is told to seek; otherwise nothing happens |
| Player.PlayerStore.Prev | vercel-serverless/frontend/src/services/player.ts:479-538 | the outcome is the prev step's (see the three `PlayerFacts.Prev…` lemmas); the cache's clear-and-refill loop leaves the cached queue equal to the new queue |
| Player.PlayerStore.SetVolume | vercel-serverless/frontend/src/services/player.ts:549-558 | the store keeps the clamped level, and a widget, when there is one, gets it times 100 |
| Player.PlayerStore.AddToQueue | vercel-serverless/frontend/src/services/player.ts:560-565 | the track is appended to the queue and to the cached queue |
| Player.PlayerStore.RemoveFromQueue | vercel-serverless/frontend/src/services/player.ts:567-572 | exactly index `i` goes from both queues; an index out of range changes neither |
| Player.PlayerStore.ClearQueue | vercel-serverless/frontend/src/services/player.ts:574-577 | both queues become empty |
| Player.PlayerStore.Like | vercel-serverless/frontend/src/services/player.ts:579-616 | a guest's like is stored locally; a signed-in like is stored only when the remote write answered ok |
| Player.PlayerStore.Unlike | vercel-serverless/frontend/src/services/player.ts:618-647 | the same rule for removing a like |
| Player.PlayerStore.SyncLikesFromDatabase | vercel-serverless/frontend/src/services/player.ts:650-688 | with a token and an ok answer the remote likes not yet liked are added; otherwise the cache is unchanged |
| Player.PlayerStore.SyncFromDatabase | vercel-serverless/frontend/src/services/player.ts:719-790 | nothing without a token; an ok likes answer replaces the local likes with the remote list; an ok history answer rebuilds the stack by pushing the server's list in reverse, so its first item ends on top |
| Player.PlayerStore.OnStateChange | vercel-serverless/frontend/src/services/player.ts:182-231 | the outcome is the widget-event step's: PLAYING plays and clears the error, PAUSED pauses only while visible, BUFFERING loads, ENDED runs `next` |
| Player.PlayerStore.TrackProgress | vercel-serverless/frontend/src/services/player.ts:189-200 | while playing with a widget, the progress and duration are copied from it; otherwise nothing changes |
| Player.PlayerStore.OnError | vercel-serverless/frontend/src/services/player.ts:232-237 | error state with "Playback error", and `next` scheduled two seconds later |
| Player.PlayerStore.ForceResume | vercel-serverless/frontend/src/services/player.ts:212-216 | a delayed resume commands the widget to play exactly when the store is still playing |
| Player.PlayerStore.Watchdog | vercel-serverless/frontend/src/services/player.ts:125-138 | it resumes exactly when the store is playing, the widget is ready, the page is hidden and the widget reports PAUSED, and it never changes the store |
| Player.PlayerStore.OnVisibilityChange | vercel-serverless/frontend/src/services/player.ts:244-279 | the check runs after 80 ms when hidden and at once when visible, and resumes exactly when the store is playing and the widget reports PAUSED |
| Player.PlayerStore.OnPageResume | vercel-serverless/frontend/src/services/player.ts:286-301 | the same resume check 50 ms later when the store is playing with a widget; otherwise nothing is scheduled (delay 0, no command) |
| PlayerFacts.PlayNotReady | vercel-serverless/frontend/src/services/player.ts:327-331 | without a ready widget, playing only sets the error "Player not ready": queue, track, state and cache stay, and no command is issued |
| PlayerFacts.PlayRemovesFirstOccurrence | vercel-serverless/frontend/src/services/player.ts:379-397 | a ready play makes the track current, loading exactly when the load did not throw, at progress 0 with its duration (or 0); it removes the first queue entry with its id, keeping the rest in order, and the cached queue loses the same index; exactly one occurrence of the id goes and every other id keeps its count |
| PlayerFacts.PlayHistory | vercel-serverless/frontend/src/services/player.ts:336-370 | the history grows by the track being left, on top, exactly when history is not skipped, there is a previous track with another id, and the user is a guest or the remote push answered ok; otherwise it is unchanged |
| PlayerFacts.NextPlaysHead | vercel-serverless/frontend/src/services/player.ts:456-462 | with a non-empty queue, `next` is `play(queue[0])` |
| PlayerFacts.NextOnEmptyQueueStops | vercel-serverless/frontend/src/services/player.ts:463-476 | with an empty queue, `next` makes the store idle with no track, progress 0 and duration 0, and leaves the history and the cache alone |
| PlayerFacts.PrevRestarts | vercel-serverless/frontend/src/services/player.ts:487-492 | more than 3 seconds in, `prev` only seeks to 0 |
| PlayerFacts.PrevWithoutHistory | vercel-serverless/frontend/src/services/player.ts:495-507 | with an empty history, `prev` seeks to 0 when there is a current track and otherwise does nothing |
| PlayerFacts.PrevGoesBack | vercel-serverless/frontend/src/services/player.ts:510-537 | otherwise, with a ready widget, `prev` pops the history, puts the current track in front of the queue when its id differs from the popped one, makes the cached queue exactly that queue, and plays the popped track without recording history |
| PlayerFacts.PrevWithoutWidget | vercel-serverless/frontend/src/services/player.ts:510-537 | without a ready widget `prev` still pops the history and puts the current track (when its id differs from the popped one) in front of both queues before the play fails with "Player not ready"; no command is sent and the current track stays |
| PlayerFacts.NextThenPrev | vercel-serverless/frontend/src/services/player.ts:445-538 | `prev` undoes `next`: after skipping forward from a track that is not queued, going back early in the new track brings the old one back as current and restores the queue |
| PlayerFacts.ToggleRules | vercel-serverless/frontend/src/services/player.ts:428-443 | playing gives a pause command, paused a play command, idle runs `play(currentTrack)`: loading exactly when the load worked, progress 0, a load command for the track, its first occurrence taken out of both queues, the history untouched; loading and error do nothing |
| PlayerFacts.HiddenPauseIsResisted | vercel-serverless/frontend/src/services/player.ts:203-221 | a PAUSED report while hidden keeps the state and schedules resumes at 50, 100 and 200 ms; while visible it makes the store paused |
| PlayerFacts.LikesOfKeys | vercel-serverless/frontend/src/services/player.ts:733-756 | after the full pull-sync the liked ids are exactly the remote ids |
| PlayerFacts.LikesOfValues | vercel-serverless/frontend/src/services/player.ts:733-756 | each liked id holds the converted last remote row with that id |
| PlayerFacts.MergeLikesSpec | vercel-serverless/frontend/src/services/player.ts:669-682 | the merging pull-sync only adds: local likes keep their entries, and the liked ids become the local ones plus the remote ones |
| ClientPlayer.ClientPlayerStore.Init | client/src/services/player.ts:67-105 | the audio element is created at volume 0.7 and the queue and last track are restored |
| ClientPlayer.ClientPlayerStore.Play | client/src/services/player.ts:118-287 | the outcome is the play step's (see the `ClientPlayer.Play…` lemmas) |
| ClientPlayer.ClientPlayerStore.TogglePlay | client/src/services/player.ts:289-319 | the outcome is the toggle step's (see `ClientPlayer.TogglePauses`, `ClientPlayer.ToggleReloads`) |
| ClientPlayer.ClientPlayerStore.Next | client/src/services/player.ts:321-358 | the outcome is the next step's (see `ClientPlayer.NextPlaysHead`, `ClientPlayer.NextOnEmptyQueueStops`) |
| ClientPlayer.ClientPlayerStore.Seek | client/src/services/player.ts:374-383 | the widget seeks when there is one, else the audio element; the store's progress is not changed |
| ClientPlayer.ClientPlayerStore.Prev | client/src/services/player.ts:360-372 | `prev` always seeks to 0 and never changes the queue or the current track |
| ClientPlayer.ClientPlayerStore.SetVolume | client/src/services/player.ts:385-395 | the store keeps the clamped level; the widget gets it times 100 and the audio element as is |
| ClientPlayer.ClientPlayerStore.AddToQueue | client/src/services/player.ts:397-402 | appends to the queue and the cached queue |
| ClientPlayer.ClientPlayerStore.RemoveFromQueue | client/src/services/player.ts:404-408 | exactly index `i` goes from both queues; out of range changes nothing |
| ClientPlayer.ClientPlayerStore.ClearQueue | client/src/services/player.ts:410-414 | both queues become empty |
| ClientPlayer.ClientPlayerStore.Like | client/src/services/player.ts:416-418 | likes go to the local cache only |
| ClientPlayer.ClientPlayerStore.Unlike | client/src/services/player.ts:420-422 | unlikes touch the local cache only |
| ClientPlayer.ClientPlayerStore.OnTimeUpdate | client/src/services/player.ts:76-78 | progress and duration follow the audio element; a missing duration reads as 0 |
| ClientPlayer.ClientPlayerStore.OnAudioPlaying | client/src/services/player.ts:84-86 | playing, with the error cleared |
| ClientPlayer.ClientPlayerStore.OnAudioPause | client/src/services/player.ts:88-93 | a pause event makes the store paused unless it is loading, and then changes nothing |
| ClientPlayer.ClientPlayerStore.OnAudioError | client/src/services/player.ts:95-98 | error state with "Failed to load audio", and no skip |
| ClientPlayer.ClientPlayerStore.OnAudioEnded | client/src/services/player.ts:80-82 | the end of the audio runs `next` |
| ClientPlayer.ClientPlayerStore.OnWidgetReady | client/src/services/player.ts:229-250 | only when the widget is ready does the store hold it and count as playing, with the widget's duration |
| ClientPlayer.ClientPlayerStore.OnWidgetProgress | client/src/services/player.ts:240-246 | progress and duration follow the widget |
| ClientPlayer.ClientPlayerStore.OnWidgetStateChange | client/src/services/player.ts:251-262 | the outcome is the widget-event step's: PLAYING plays, PAUSED pauses, ENDED runs `next` |
| ClientPlayer.PlayTerminatesFirst | client/src/services/player.ts:125-144 | playing first clears the audio source and destroys the widget, in that order |
| ClientPlayer.PlayOutcome | client/src/services/player.ts:147-286 | a play sets the track current at progress 0 with its duration (or 0); a started play is loading and records the track as last played; a failed start ends in the error state with "Failed to play track. Trying next..." and `next` scheduled after two seconds |
| ClientPlayer.PlayWithoutAudio | client/src/services/player.ts:118-120 | without an audio element, `play` does nothing |
| ClientPlayer.PlayRemovesFirstOccurrence | client/src/services/player.ts:159-166 | playing removes the first queue entry with the track's id, keeping the rest in order, and the cached queue loses the same index; exactly one occurrence goes and every other id keeps its count |
| Common.FirstIndexRemoval | vercel-serverless/frontend/src/services/player.ts:379-387 | removing at the index `findIndex` gives takes out the first entry with the id and keeps the rest in order; with no such entry nothing changes |
| ClientPlayer.NextPlaysHead | client/src/services/player.ts:324-326 | with a non-empty queue, `next` terminates the old source and plays the head, which becomes current at progress 0 with its duration and leaves both queues; the rest stays in order |
| ClientPlayer.NextOnEmptyQueueStops | client/src/services/player.ts:324-357 | with an empty queue, `next` stops: idle, no track, progress 0 and duration 0, no widget, the cache untouched, and the old audio source and widget terminated |
| ClientPlayer.TogglePauses | client/src/services/player.ts:293-300 | while playing, toggling pauses the active back end and changes nothing in the store |
| ClientPlayer.ToggleReloads | client/src/services/player.ts:301-310 | outside the playing state with no widget and an audio element that was never given a source, toggling plays the current track again |
| ClientPlayer.ToggleAfterAudioResumes | client/src/services/player.ts:122-130 | after an audio play the element reads as having a source, so toggling outside the playing state resumes it rather than reloading; stopping on an empty queue keeps it reading as having one |
| SyncRoute.UpsertLike | vercel-serverless/backend/src/routes/sync.ts:62-89 | a like adds 2.0 to an existing recommendation and marks it liked, or creates one scored 3.0; other rows stay |
| SyncRoute.UpsertPlay | vercel-serverless/backend/src/routes/sync.ts:114-140 | a play adds 0.5 and one play to an existing recommendation, or creates one scored 1.0 with one play |
| SyncRoute.RecentHistory | vercel-serverless/backend/src/routes/sync.ts:98 | `slice(-100)`: the last `min(100, n)` entries, in their order |
| SyncRoute.SyncDb.SyncLike | vercel-serverless/backend/src/routes/sync.ts:33-95 | one like: a throwing lookup skips it, an existing like counts as a duplicate, a throwing create writes nothing, a throwing upsert keeps the created row uncounted, otherwise the like row, the recommendation and the synced count all advance |
| SyncRoute.SyncDb.SyncPlay | vercel-serverless/backend/src/routes/sync.ts:100-146 | one history entry: a throwing create writes nothing, a throwing upsert keeps the row uncounted, otherwise the row, the recommendation and the synced count advance |
| SyncRoute.SyncDb.HandleSync | vercel-serverless/backend/src/routes/sync.ts:24-160 | the loops leave the tables and the answer that the handler's step functions give |
| SyncRoute.SyncLikesCounts | vercel-serverless/backend/src/routes/sync.ts:32-95 | the likes loop only appends like rows for tracks of the batch; created rows, duplicates and likes whose lookup threw together never exceed the batch; only a created row is counted as synced, and never more likes than had no failing call |
| SyncRoute.FailedLikeUncounted | vercel-serverless/backend/src/routes/sync.ts:33-95 | a like whose lookup throws, or that is new and whose create or upsert throws, counts toward neither counter; a throwing lookup or create writes nothing; a new like whose calls all succeed counts as synced |
| SyncRoute.FailedPlayUncounted | vercel-serverless/backend/src/routes/sync.ts:100-146 | a history entry counts only when its create and its upsert both succeed; a throwing create writes nothing, otherwise the row is appended |
| SyncRoute.SyncLikesConsistent | vercel-serverless/backend/src/routes/sync.ts:35-59 | the liked ids grow by exactly the created rows' ids, and no created row was liked before, so no track is created twice |
| SyncRoute.DuplicateLike | vercel-serverless/backend/src/routes/sync.ts:35-47 | a like that already exists remotely creates nothing and counts as a duplicate |
| SyncRoute.SyncLikesNoFaults | vercel-serverless/backend/src/routes/sync.ts:32-95 | with no failing call every like is synced or a duplicate, and the liked ids gain exactly the batch's ids |
| SyncRoute.SyncHistoryAppends | vercel-serverless/backend/src/routes/sync.ts:99-146 | the history loop appends exactly the entries whose create did not throw, in order, and counts exactly those whose create and upsert both succeeded; like rows and counters stay |
| SyncRoute.SyncHistorySpec | vercel-serverless/backend/src/routes/sync.ts:99-146 | the history loop appends exactly the processed entries whose create did not throw, in order and without de-duplication, and counts each one whose create and upsert both succeeded; without failures it appends and counts every entry |
| SyncRoute.SyncSpec | vercel-serverless/backend/src/routes/sync.ts:27-155 | `likesSynced + duplicatesSkipped <= |likes|`; `likesSynced` is at most the likes with no failing call and a throwing lookup counts toward neither counter; the history gains exactly the last `min(100, |history|)` entries whose create did not throw, in order, and `historySynced` is exactly the number whose create and upsert both succeeded; with no failures every like is synced or a duplicate and all those entries are appended |
| SyncRoute.MalformedRejected | vercel-serverless/backend/src/routes/sync.ts:157-159 | a body that fails validation gets 400 and writes nothing |
| SyncRoute.RepeatedLikeInOneBatch | vercel-serverless/backend/src/routes/sync.ts:35-91 | liking `a`, `b`, `a` with `b` already liked creates `a` once and answers `{1, 0, 2}` |
| Lyrics.FindMatchSpec | vercel-serverless/frontend/src/services/lyrics.ts:38 | the unanchored regular-expression search finds the first position where the pattern matches, or reports that there is none |
| Lyrics.JoinSplit | vercel-serverless/frontend/src/services/lyrics.ts:34 | splitting on newlines loses nothing: joining the pieces gives the text back |
| Lyrics.NonBlankLines | vercel-serverless/frontend/src/services/lyrics.ts:34 | exactly the lines whose `trim()` is non-empty remain |
| Lyrics.NonBlankLinesAppend | vercel-serverless/frontend/src/services/lyrics.ts:34 | the filter keeps line order: filtering two blocks one after the other is filtering them together |
| Lyrics.NonBlankLine | vercel-serverless/frontend/src/services/lyrics.ts:34 | a single line is kept exactly when it is not blank |
| Lyrics.Entries | vercel-serverless/frontend/src/services/lyrics.ts:37-47 | an entry appears exactly when some line parses to it, so untagged lines produce nothing, and there are never more entries than lines |
| Lyrics.EntriesAppend | vercel-serverless/frontend/src/services/lyrics.ts:37-47 | entries keep line order: parsing two blocks one after the other is parsing them together |
| Lyrics.EntriesLine | vercel-serverless/frontend/src/services/lyrics.ts:38-46 | a line gives no entry when it has no tag and exactly its parse otherwise |
| Lyrics.SortByTimeSpec | vercel-serverless/frontend/src/services/lyrics.ts:49 | the sort orders by time, is a permutation, and keeps lines of equal time in their order |
| Lyrics.ParseSyncedLyrics | vercel-serverless/frontend/src/services/lyrics.ts:33-50 | the result is the sorted entries of the non-blank lines: at most one per such line, sorted, a permutation of the parsed entries |
| Lyrics.DigitsRoundTrip | vercel-serverless/frontend/src/services/lyrics.ts:40-42 | `parseInt` reads back the decimal digits of any number |
| Lyrics.ParseFormatLine | vercel-serverless/frontend/src/services/lyrics.ts:38-45 | a line `[m:ss.cc]text` parses to time `m*6000 + ss*100 + cc` hundredths with `text` as its text, when the text neither starts with white space nor holds a line terminator |
| Lyrics.LastReached | vercel-serverless/frontend/src/services/lyrics.ts:131-141 | the reference result lies in [-1, n-1] |
| Lyrics.GetCurrentLineIndex | vercel-serverless/frontend/src/services/lyrics.ts:131-141 | -1 for an empty list; otherwise the largest index whose time has been reached, or -1 when there is none; always in [-1, n-1] |
| Lyrics.LastReachedMonotone | vercel-serverless/frontend/src/services/lyrics.ts:131-141 | a later playback time never selects an earlier line |
| Lyrics.LastReachedSorted | vercel-serverless/frontend/src/services/lyrics.ts:131-141 | on sorted lines, a line has been reached exactly when its index is at most the selected one |
| Lyrics.FirstFit | vercel-serverless/frontend/src/services/lyrics.ts:91-94 | the first result within 5 seconds of the rounded duration, or -1 when none is |
| Lyrics.BestMatch | vercel-serverless/frontend/src/services/lyrics.ts:91-94 | the choice is one of the results: the first one within 5 seconds when there is one, else the first result |
| Lyrics.GetLyrics | vercel-serverless/frontend/src/services/lyrics.ts:56-107 | a cache hit is returned as is; a thrown lookup, a failed or empty search gives null; otherwise the best match is written to the cache and returned when the write resolved |
| Lyrics.CacheHitSkipsFetch | vercel-serverless/frontend/src/services/lyrics.ts:63-67 | a cache hit does not depend on the search or on the cache write |
| Lyrics.RandomNoLyricsMessage | vercel-serverless/frontend/src/services/lyrics.ts:159-161 | one of the eight messages, the one at `floor(r * 8)` |
| PlaylistStore.Decremented | vercel-serverless/frontend/src/lib/playlistStore.ts:189 | `max(0, (count \|\| 1) - 1)`: never negative, one less for a positive count, 0 otherwise |
| PlaylistStore.IncrementCount | vercel-serverless/frontend/src/lib/playlistStore.ts:157-168 | only the matching playlist's count grows by one, a missing count reading as 0; the others are unchanged |
| PlaylistStore.DecrementCount | vercel-serverless/frontend/src/lib/playlistStore.ts:183-195 | only the matching playlist's count is decremented as above; the others are unchanged |
| PlaylistStore.AddThenRemoveTrack | vercel-serverless/frontend/src/lib/playlistStore.ts:157-195 | removing a track after adding it restores every playlist whose count was known and not negative |
| PlaylistStore.PlaylistStore.FetchPlaylists | vercel-serverless/frontend/src/lib/playlistStore.ts:66-92 | nothing without a token or inside the 5-second window; success stores the list and the fetch time; failure keeps the list |
| PlaylistStore.PlaylistStore.CreatePlaylist | vercel-serverless/frontend/src/lib/playlistStore.ts:94-120 | "Not authenticated", then "Maximum 15 playlists allowed" at 15 or more before any request, then a failure on a non-ok answer; success prepends the playlist and clears the fetch time, and the list never grows past 15 |
| PlaylistStore.PlaylistStore.AddTrackToPlaylist | vercel-serverless/frontend/src/lib/playlistStore.ts:137-169 | an error leaves the state unchanged; success increments that playlist's count only |
| PlaylistStore.PlaylistStore.RemoveTrackFromPlaylist | vercel-serverless/frontend/src/lib/playlistStore.ts:171-196 | an error leaves the state unchanged; success decrements that playlist's count only |
| PlaylistStore.PlaylistStore.DeletePlaylist | vercel-serverless/frontend/src/lib/playlistStore.ts:216-229 | only after an ok answer, exactly the playlists with that id are removed |
| BlendStore.CurrentAfterLeave | vercel-serverless/frontend/src/lib/blendStore.ts:253-256 | the blend being viewed is cleared exactly when it is the one left |
| BlendStore.BlendStore.SendInvite | vercel-serverless/frontend/src/lib/blendStore.ts:81-98 | throws without a token or on a non-ok answer, with the server's message; changes nothing |
| BlendStore.BlendStore.FetchInvites | vercel-serverless/frontend/src/lib/blendStore.ts:100-124 | nothing without a token or inside the 45-second window; success stores the invites and the time; failure changes nothing |
| BlendStore.BlendStore.AcceptInvite | vercel-serverless/frontend/src/lib/blendStore.ts:126-150 | errors change nothing; success removes the invite and puts the returned blend first |
| BlendStore.BlendStore.RejectInvite | vercel-serverless/frontend/src/lib/blendStore.ts:152-169 | errors change nothing; success removes exactly the invites with that id |
| BlendStore.BlendStore.FetchBlends | vercel-serverless/frontend/src/lib/blendStore.ts:171-199 | nothing without a token or inside the 30-second window; otherwise the loading flag ends lowered and success stores the blends and the time |
| BlendStore.BlendStore.ShowBlend | vercel-serverless/frontend/src/lib/blendStore.ts:201-236 | `getBlend` and `regenerateBlend`: errors change nothing; success makes the answer the blend being viewed |
| BlendStore.BlendStore.LeaveBlend | vercel-serverless/frontend/src/lib/blendStore.ts:238-259 | errors change nothing; success removes that blend, clears the viewed blend only when it matches, and no blend with that id remains |
| BlendTracks.MergedPrecedence | vercel-serverless/backend/src/routes/blends.ts:401-412 | the merged map holds exactly the ids of the four lists; each id's row and source user come from the first list holding it, in the order user 1 liked, user 2 liked, user 1 played, user 2 played; user 1's liked list keeps its last row for an id |
| BlendTracks.SetAllGet | vercel-serverless/backend/src/routes/blends.ts:403 | after the unconditional `set` loop an id maps to the last row of the list with that id, else to what it had |
| BlendTracks.AddMissingGet | vercel-serverless/backend/src/routes/blends.ts:404-412 | after a `has`-guarded loop an id that was present keeps its value, and a new one maps to the first row with it |
| BlendTracks.MergedSize | vercel-serverless/backend/src/routes/blends.ts:401-415 | the merged map has one entry per distinct id |
| BlendTracks.TakeLimitsFit | vercel-serverless/backend/src/routes/blends.ts:375-398 | with the queries' limits of 15, 15, 10 and 10 rows the union has at most 50 ids |
| BlendTracks.ScaledDraw | vercel-serverless/backend/src/routes/blends.ts:417 | `Math.floor(Math.random() * (i + 1))` is an index in 0..i |
| BlendTracks.SwapRearranged | vercel-serverless/backend/src/routes/blends.ts:418 | swapping two entries keeps the array a rearrangement of the original |
| BlendTracks.Shuffle | vercel-serverless/backend/src/routes/blends.ts:415-419 | the Fisher-Yates loop leaves the array a rearrangement of its old contents, each element once |
| BlendTracks.SetEach | vercel-serverless/backend/src/routes/blends.ts:403 | the `forEach` loop builds the map of the reference definition |
| BlendTracks.AddEachMissing | vercel-serverless/backend/src/routes/blends.ts:404-412 | the guarded `forEach` loop builds the map of the reference definition |
| BlendTracks.MergeSources | vercel-serverless/backend/src/routes/blends.ts:401-412 | the four passes build the merged track map, with exactly one entry per id of the four lists |
| BlendTracks.ShuffledCopy | vercel-serverless/backend/src/routes/blends.ts:415-419 | the shuffled array is a rearrangement of the map's values: same length, same elements, each position taken exactly once |
| BlendTracks.GenerateBlendTracks | vercel-serverless/backend/src/routes/blends.ts:373-439 | at most 50 tracks, no id twice, each with the source user the precedence gives and at position 0..n-1 in order; when the ids number at most 50, every id appears |
| BlendTracks.GeneratedFromShuffle | vercel-serverless/backend/src/routes/blends.ts:415-434 | any rearrangement of the merged values, cut to 50 and positioned, meets the promise above |
| BlendsRoute.FindUser | vercel-serverless/backend/src/routes/blends.ts:14-17 | finds the user whose email (or id) is the one asked for, or none exactly when no user has it |
| BlendsRoute.DisplayName | vercel-serverless/backend/src/routes/blends.ts:348 | `user?.name \|\| 'User'`: a missing user, a missing or empty name read as "User" |
| BlendsRoute.BlendName | vercel-serverless/backend/src/routes/blends.ts:348 | the name is the first name, " x ", the second name and " Blend", and both names can be read back from it |
| BlendsRoute.FindPending | vercel-serverless/backend/src/routes/blends.ts:105-107 | the pending invite with that id whose receiver is the requester, or -1 exactly when there is none |
| BlendsRoute.SetStatus | vercel-serverless/backend/src/routes/blends.ts:115-118 | only the invite with that id changes, and only in its status |
| BlendsRoute.AnswerIsFinal | vercel-serverless/backend/src/routes/blends.ts:105-151 | answering keeps at most one invite per pair, and an answered invite cannot be answered again (a second accept or reject is 404) |
| BlendsRoute.FindMemberBlend | vercel-serverless/backend/src/routes/blends.ts:247-255 | a blend with that id that has the requester as a member, or -1 exactly when there is none |
| BlendsRoute.TracksOf | vercel-serverless/backend/src/routes/blends.ts:220-222 | exactly the tracks of that blend |
| BlendsRoute.DeleteBlendKeepsTracksBelong | vercel-serverless/backend/src/routes/blends.ts:316-324 | deleting a blend's tracks before the blend leaves no track without its blend and none of the deleted blend |
| BlendsRoute.BlendDb.SendInvite | vercel-serverless/backend/src/routes/blends.ts:6-66 | in order: 404 for an unknown email, 400 for oneself, 409 when an invite exists between the two in either direction and in any status; otherwise a pending invite is appended; a refusal writes nothing and the table never holds two invites for one pair |
| BlendsRoute.BlendDb.AcceptInvite | vercel-serverless/backend/src/routes/blends.ts:97-129 | 404 unless the requester is the receiver of a pending invite with that id; otherwise it becomes accepted and a blend of sender and receiver is created with generated tracks |
| BlendsRoute.BlendDb.CreateBlend | vercel-serverless/backend/src/routes/blends.ts:336-370 | the new blend row carries the two display names, and the tracks appended are generated ones |
| BlendsRoute.BlendDb.AddTracks | vercel-serverless/backend/src/routes/blends.ts:436-438 | `createMany` appends the tracks and keeps every track tied to an existing blend |
| BlendsRoute.BlendDb.RejectInvite | vercel-serverless/backend/src/routes/blends.ts:132-159 | 404 unless the requester is the receiver of a pending invite with that id; otherwise it becomes rejected |
| BlendsRoute.BlendDb.GetBlend | vercel-serverless/backend/src/routes/blends.ts:198-237 | 404 "Blend not found" unless the requester is a member; otherwise the blend with exactly its tracks |
| BlendsRoute.BlendDb.RegenerateBlend | vercel-serverless/backend/src/routes/blends.ts:240-291 | 404 unless the requester is a member; otherwise the blend's tracks are replaced by newly generated ones and every other track stays |
| BlendsRoute.BlendDb.LeaveBlend | vercel-serverless/backend/src/routes/blends.ts:294-332 | 404 unless the requester is a member; otherwise the blend and all its tracks are deleted and the other rows stay |
| PlaylistsRoute.FindVisible | vercel-serverless/backend/src/routes/playlists.ts:73-80 | a playlist with that id that the requester owns or that is public, or -1 exactly when there is none |
| PlaylistsRoute.Shift | vercel-serverless/backend/src/routes/playlists.ts:130-133 | every entry of the playlist moves down one position; entries of other playlists are untouched |
| PlaylistsRoute.AddTrackAsWrittenShiftsOnConflict | vercel-serverless/backend/src/routes/playlists.ts:129-153 | as written, a duplicate add answers 409 after the shift was committed, leaving no entry at position 0 |
| PlaylistsRoute.ShiftHasTrack | vercel-serverless/backend/src/routes/playlists.ts:130-133 | shifting positions keeps which tracks each playlist holds |
| PlaylistsRoute.AddTrackAsWrittenAgrees | vercel-serverless/backend/src/routes/playlists.ts:116-157 | the handler as written gives the same answer as the corrected add in every case and the same tables except on a duplicate, where its 409 leaves the playlist's entries shifted down one; its 400 and 404 change nothing |
| PlaylistsRoute.AddTrackRefusals | vercel-serverless/backend/src/routes/playlists.ts:116-157 | for the corrected add: 400 for an invalid body, then 404 when the playlist is not the user's, then 409 for a track already in it; a refusal changes nothing (the code's own 409 keeps the shift, see `PlaylistsRoute.AddTrackAsWrittenAgrees`) |
| PlaylistsRoute.AddTrackOnTop | vercel-serverless/backend/src/routes/playlists.ts:129-146 | a successful add puts the new track at position 0, moves every earlier entry of the playlist down one so their relative order is kept, leaves other playlists alone, and turns positions 0..n-1 into 0..n |
| PlaylistsRoute.RemoveEntry | vercel-serverless/backend/src/routes/playlists.ts:182-189 | exactly the entry with that playlist and track goes |
| PlaylistsRoute.RemoveTrackSpec | vercel-serverless/backend/src/routes/playlists.ts:165-201 | 404 exactly when the playlist is not the user's or the track is not in it, and then nothing changes; otherwise the track is no longer in the playlist |
| PlaylistsRoute.NeedsRefreshMonotone | vercel-serverless/backend/src/routes/playlists.ts:272-277 | a cache that is stale at some time stays stale at every later time until it is rebuilt |
| PlaylistsRoute.RebuildServedForAWeek | vercel-serverless/backend/src/routes/playlists.ts:272-344 | after a completed rebuild at `now`, any call up to a week later answers from the cache without rebuilding and shows the same tracks as the rebuilding call |
| PlaylistsRoute.PlaylistDb.GetPlaylist | vercel-serverless/backend/src/routes/playlists.ts:66-108 | 404 exactly when no playlist with that id is the requester's or public; otherwise a visible playlist with exactly its entries |
| PlaylistsRoute.PlaylistDb.AddTrackToPlaylist | vercel-serverless/backend/src/routes/playlists.ts:111-162 | the tables and answer of the corrected add (see the finding) |
| PlaylistsRoute.PlaylistDb.RemoveTrackFromPlaylist | vercel-serverless/backend/src/routes/playlists.ts:165-201 | the tables and answer of `PlaylistsRoute.RemoveTrackSpec` |
| PlaylistsRoute.PlaylistDb.DiscoverPopular | vercel-serverless/backend/src/routes/playlists.ts:264-350 | the new cache and the answer are the popular step's; at most 20 tracks either way: a stale cache answers the first 20 aggregated rows and is rebuilt as far as the rebuild gets; a fresh one answers its first 20 and changes nothing |
| PlaylistsRoute.EntriesOf | vercel-serverless/backend/src/routes/playlists.ts:81-84 | exactly the entries of that playlist |
| Recommendations.ToRecTrack | vercel-serverless/backend/src/routes/recommendations.ts:47-53 | the response track keeps id, title and artist, reads a missing thumbnail as empty, and has duration 0 |
| Recommendations.RecentlyPlayedSpec | vercel-serverless/backend/src/routes/recommendations.ts:46-54 | at most 10 tracks, no id twice, all durations 0; the ids are the plays' distinct ids in order of first (most recent) occurrence, and each track holds the data of the last occurrence |
| Recommendations.GroupByArtist | vercel-serverless/backend/src/routes/recommendations.ts:103-124 | the grouping loop builds the map of the step-by-step definition |
| Recommendations.GroupRow | vercel-serverless/backend/src/routes/recommendations.ts:105-123 | one pass of the loop body leaves the map of one grouping step: the artist's list is created if missing and gains the track only when it lacks the video and holds fewer than 8 |
| Recommendations.GroupedSpec | vercel-serverless/backend/src/routes/recommendations.ts:103-124 | each artist's list is the first 8 distinct videos of their plays, first seen first; an artist without plays has no entry |
| Recommendations.DistinctByIdUnique | vercel-serverless/backend/src/routes/recommendations.ts:118-122 | keeping the first occurrence of each video leaves no video twice |
| Recommendations.ArtistTracksBounds | vercel-serverless/backend/src/routes/recommendations.ts:118-122 | per artist, at most 8 tracks and no video twice |
| Recommendations.TopArtistsSpec | vercel-serverless/backend/src/routes/recommendations.ts:127-131 | the top artists keep the aggregation's order and counts, and each lists its tracks, the empty list when none were found |
| Recommendations.MostPlayed | vercel-serverless/backend/src/routes/recommendations.ts:67-73 | one response track per aggregated row, in order |
| Recommendations.Recommend | vercel-serverless/backend/src/routes/recommendations.ts:27-141 | the response's three lists are the recently played, most played and top-artist lists defined above |

## Left out

- The local cache (`lib/cache.ts`) is not part of this model. `Cache.LocalCache` is assumed from
  how the stores call it: a queue, a history stack with its top first, a liked map and the last
  played track. A cap on the history stack, if the cache has one, is not modelled.
- Timers, intervals, `requestAnimationFrame` and event listeners: only the decision each callback
  makes is modelled, and a delay appears as a scheduled command. Races between callbacks are not
  modelled. In particular, the fire-and-forget history push in `_playInternal` is applied at once,
  and nothing guards against a stale answer, as in the code.
- The YouTube widget, the audio element, `fetch`, IndexedDB and Prisma are inputs: reported
  states, ok flags, error messages, query results and fault choices. A request that throws is
  treated like a non-ok answer.
- The backend routes' 500 answers (a database call that throws) are not modelled for the blend
  and playlist routes. The sync route models each failing call by a fault choice.
- ClientPlayer: the audio element is modelled only by whether `audio.src` reads as truthy. It
  reads back as a URL resolved against the page once anything was assigned, the empty string that
  stops playback included, so it stays truthy from the first play on. Toggling a stopped element
  therefore resumes it (`PlayAudio`) rather than reloading the track, as the code does; the media
  error that follows arrives through `OnAudioError`, and loading itself is not modelled.
- Player.PlayerStore.Seek: the argument is not clamped to the track's length, as in the code.
- `play` in both stores removes only the first queue entry with the track's id, following the
  code. A duplicate entry stays queued.
- The media-session integration, search, `checkIsLiked` and the playlist store's `getPlaylist`,
  `updatePlaylist` and `setCurrentPlaylist`. They are plain requests or display state.
- The playlist routes' list, create, update and delete handlers, and the blend routes' invite and
  blend lists. They are single queries without rules.
- PlaylistsRoute.PlaylistDb.GetPlaylist, BlendsRoute.BlendDb.GetBlend, BlendsRoute.BlendDb.RegenerateBlend:
  the entries come in table order; the queries' order by position is not modelled.
- PlaylistsRoute.PlaylistDb.DiscoverPopular: the cached list keeps its stored order, so the
  query's order by play count is not modelled. The rebuild runs in the background in the code;
  here it runs to the point its fault choice names before the answer.
- PlaylistsRoute.PlaylistDb.AddTrackToPlaylist: the method stands for the corrected handler, so
  on a duplicate it answers 409 with the tables unchanged. The code's 409 keeps every entry of the
  playlist shifted down one; that behaviour is `PlaylistsRoute.AddTrackAsWritten`, related to the
  corrected add by `PlaylistsRoute.AddTrackAsWrittenAgrees` (see "Findings").
- PlaylistsRoute.AddTrackRefusals: the body is validated (400) before ownership is checked
  (404), as in the code, so an invalid body sent to someone else's playlist gets 400.
- BlendsRoute.BlendDb.SendInvite: an invite in any status between the two users blocks a new one
  (409), following the code. An answered invite therefore blocks the pair for good.
- Recommendations.Recommend: the aggregations' ordering and `take` limits are inputs. The
  per-artist query is skipped when there are no top artists, as in the code.
- Recommendations.GroupByArtist: the code pushes onto the array held in the map; the model
  replaces the map entry by the longer list, which has the same effect because nothing else holds
  that array.
- Lyrics.GetLyrics: `Math.round` is modelled on reals, and float rounding in `min*60 + sec +
  cs/100` is avoided by keeping times in integer hundredths. `parseInt` is exact on the digits.
- SyncRoute.UpsertLike, SyncRoute.UpsertPlay: scores are kept as integer halves, because the
  score steps of the code (1.0, 0.5, 3.0, 2.0) are all multiples of one half.
- Integer widths: JavaScript numbers are modelled as unbounded integers or reals.

## Findings

| source | as written | input that shows it | evidently intended | confidence | as-written member | corrected member |
|---|---|---|---|---|---|---|
| vercel-serverless/backend/src/routes/playlists.ts:129-153 | the positions of every entry of the playlist are incremented, then the new entry is created; a duplicate track makes the create fail with 409, but the increment has already been committed | playlist `p` owned by `u` with track `t` at position 0; adding `t` again answers 409 and leaves `t` at position 1, with no entry at position 0 | a refused add changes nothing: check for the duplicate (or do both writes in one transaction) before shifting | not executed | PlaylistsRoute.AddTrackAsWrittenShiftsOnConflict | PlaylistsRoute.AddTrackOnTop |
