/** The playlist routes (vercel-serverless/backend/src/routes/playlists.ts) that carry rules: who may
    see a playlist, adding a track at the top, removing a track, and the weekly refresh of the
    popular-tracks cache, over the tables `playlist`, `playlistTrack`, `cachedPopularTracks` and the
    `popular_tracks_updated` entry of `systemCache`.

    The authenticated user's id, the time, the validated request body and the aggregation query's
    result are parameters. */
module PlaylistsRoute {
  import opened Common

  datatype PlaylistRow = PlaylistRow(id: string, userId: string, name: string, isPublic: bool)

  /** A playlist entry; `(playlistId, trackId)` is unique in the table. */
  datatype TrackRow = TrackRow(playlistId: string, trackId: string, title: string, artist: string, thumbnail: string,
                               duration: int, position: int)

  /** The body `addToPlaylistSchema` accepts. */
  datatype NewTrack = NewTrack(trackId: string, title: string, artist: string, thumbnail: string, duration: int)

  datatype PopularTrack = PopularTrack(trackId: string, title: string, artist: string, playlistCount: int)

  /** A handler's answer: the body of a 200 response, or an error status with its message. */
  datatype Reply<T> = Done(value: T) | Refused(code: int, error: string)

  datatype Tables = Tables(playlists: seq<PlaylistRow>, tracks: seq<TrackRow>)

  const OneWeekMs: int := 7 * 24 * 60 * 60 * 1000
  const PopularShown: nat := 20

  /** `findFirst({ where: { id, userId } })` found a row. */
  predicate Owns(playlists: seq<PlaylistRow>, id: string, userId: string) {
    exists i :: 0 <= i < |playlists| && playlists[i].id == id && playlists[i].userId == userId
  }

  /** `findFirst({ where: { id, OR: [{ userId }, { isPublic: true }] } })`: its index, or -1. */
  function FindVisible(playlists: seq<PlaylistRow>, id: string, userId: string): (r: int)
    ensures -1 <= r < |playlists|
    ensures r == -1 <==> forall i :: 0 <= i < |playlists| ==> !Visible(playlists[i], id, userId)
    ensures 0 <= r ==> Visible(playlists[r], id, userId)
  {
    if playlists == [] then -1
    else if Visible(playlists[0], id, userId) then 0
    else
      var r := FindVisible(playlists[1..], id, userId);
      if r == -1 then -1 else r + 1
  }

  /** A playlist is shown by id to its owner, and to anyone when it is public. */
  predicate Visible(p: PlaylistRow, id: string, userId: string) {
    p.id == id && (p.userId == userId || p.isPublic)
  }

  predicate HasTrack(tracks: seq<TrackRow>, playlistId: string, trackId: string) {
    exists i :: 0 <= i < |tracks| && tracks[i].playlistId == playlistId && tracks[i].trackId == trackId
  }

  /** `updateMany({ where: { playlistId }, data: { position: { increment: 1 } } })`. */
  function Shift(tracks: seq<TrackRow>, playlistId: string): (r: seq<TrackRow>)
    ensures |r| == |tracks|
    ensures forall i :: 0 <= i < |tracks| ==>
      r[i] == if tracks[i].playlistId == playlistId then tracks[i].(position := tracks[i].position + 1) else tracks[i]
  {
    if tracks == [] then []
    else [if tracks[0].playlistId == playlistId then tracks[0].(position := tracks[0].position + 1) else tracks[0]]
         + Shift(tracks[1..], playlistId)
  }

  function TopRow(playlistId: string, t: NewTrack): TrackRow {
    TrackRow(playlistId, t.trackId, t.title, t.artist, t.thumbnail, t.duration, 0)
  }

  /** `POST /:id/tracks` as written: the body is validated (400), ownership is checked (404), every
      entry of the playlist moves down one place, and only then is the new entry created, which
      fails with the unique-constraint error (409) when the track is already there, after the
      shift has been committed. */
  function AddTrackAsWritten(t: Tables, id: string, userId: string, body: Option<NewTrack>): (Reply<TrackRow>, Tables) {
    if body.None? then (Refused(400, "Validation failed"), t)
    else if !Owns(t.playlists, id, userId) then (Refused(404, "Playlist not found"), t)
    else
      var shifted := Shift(t.tracks, id);
      if HasTrack(shifted, id, body.value.trackId) then (Refused(409, "Track already in playlist"), t.(tracks := shifted))
      else (Done(TopRow(id, body.value)), t.(tracks := shifted + [TopRow(id, body.value)]))
  }

  /** `POST /:id/tracks` with the duplicate found before anything is written: a refused request
      changes nothing. */
  function AddTrack(t: Tables, id: string, userId: string, body: Option<NewTrack>): (Reply<TrackRow>, Tables) {
    if body.None? then (Refused(400, "Validation failed"), t)
    else if !Owns(t.playlists, id, userId) then (Refused(404, "Playlist not found"), t)
    else if HasTrack(t.tracks, id, body.value.trackId) then (Refused(409, "Track already in playlist"), t)
    else
      var row := TopRow(id, body.value);
      (Done(row), t.(tracks := Shift(t.tracks, id) + [row]))
  }

  /** As written, adding a track that is already in the playlist answers 409 but leaves every
      entry one place lower: the playlist no longer has an entry at position 0. */
  lemma AddTrackAsWrittenShiftsOnConflict()
    ensures var song := NewTrack("t", "Song", "Artist", "", 180);
      var t := Tables([PlaylistRow("p", "u", "Mine", false)], [TopRow("p", song)]);
      var (r, t') := AddTrackAsWritten(t, "p", "u", Some(song));
      && r == Refused(409, "Track already in playlist")
      && t'.tracks == [TopRow("p", song).(position := 1)]
      && (forall i :: 0 <= i < |t'.tracks| ==> t'.tracks[i].position != 0)
  {
    var song := NewTrack("t", "Song", "Artist", "", 180);
    var t := Tables([PlaylistRow("p", "u", "Mine", false)], [TopRow("p", song)]);
    assert t.playlists[0].id == "p" && t.playlists[0].userId == "u";
    assert Shift(t.tracks, "p")[0].trackId == "t";
  }

  /** Shifting positions keeps which tracks each playlist holds. */
  lemma ShiftHasTrack(tracks: seq<TrackRow>, id: string, playlistId: string, trackId: string)
    ensures HasTrack(Shift(tracks, id), playlistId, trackId) <==> HasTrack(tracks, playlistId, trackId)
  {
    var shifted := Shift(tracks, id);
    if HasTrack(tracks, playlistId, trackId) {
      var i :| 0 <= i < |tracks| && tracks[i].playlistId == playlistId && tracks[i].trackId == trackId;
      assert shifted[i].playlistId == playlistId && shifted[i].trackId == trackId;
    }
    if HasTrack(shifted, playlistId, trackId) {
      var i :| 0 <= i < |shifted| && shifted[i].playlistId == playlistId && shifted[i].trackId == trackId;
      assert tracks[i].playlistId == playlistId && tracks[i].trackId == trackId;
    }
  }

  /** The handler as written answers exactly as the corrected one, and leaves the same tables except
      on a duplicate: there its 409 keeps the shift of every entry of the playlist. So a 400 or 404
      changes nothing and a success is the corrected success. */
  lemma AddTrackAsWrittenAgrees(t: Tables, id: string, userId: string, body: Option<NewTrack>)
    ensures AddTrackAsWritten(t, id, userId, body).0 == AddTrack(t, id, userId, body).0
    ensures var duplicate := body.Some? && Owns(t.playlists, id, userId) && HasTrack(t.tracks, id, body.value.trackId);
      && (!duplicate ==> AddTrackAsWritten(t, id, userId, body) == AddTrack(t, id, userId, body))
      && (duplicate ==> AddTrackAsWritten(t, id, userId, body) ==
                          (Refused(409, "Track already in playlist"), t.(tracks := Shift(t.tracks, id))))
    ensures AddTrackAsWritten(t, id, userId, body).0.Refused? && AddTrackAsWritten(t, id, userId, body).0.code != 409 ==>
      AddTrackAsWritten(t, id, userId, body).1 == t
  {
    if body.Some? && Owns(t.playlists, id, userId) {
      ShiftHasTrack(t.tracks, id, id, body.value.trackId);
    }
  }

  /** Every refusal of the corrected handler leaves the tables as they were, and the checks come in
      the order validation, ownership, duplicate. */
  lemma AddTrackRefusals(t: Tables, id: string, userId: string, body: Option<NewTrack>)
    ensures AddTrack(t, id, userId, body).0.Refused? ==> AddTrack(t, id, userId, body).1 == t
    ensures body.None? ==> AddTrack(t, id, userId, body).0 == Refused(400, "Validation failed")
    ensures body.Some? && !Owns(t.playlists, id, userId) ==> AddTrack(t, id, userId, body).0 == Refused(404, "Playlist not found")
    ensures body.Some? && Owns(t.playlists, id, userId) ==>
      (AddTrack(t, id, userId, body).0.Done? <==> !HasTrack(t.tracks, id, body.value.trackId))
    ensures AddTrack(t, id, userId, body).0.Done? || AddTrack(t, id, userId, body).0.code in {400, 404, 409}
  {
  }

  /** The positions of a playlist's entries. */
  function Positions(tracks: seq<TrackRow>, playlistId: string): set<int> {
    set r | r in tracks && r.playlistId == playlistId :: r.position
  }

  /** The positions are exactly 0, 1, …, n - 1. */
  ghost predicate IsRange(s: set<int>, n: nat) {
    forall k :: k in s <==> 0 <= k < n
  }

  /** After a successful add the new track is the only entry at position 0, every earlier entry of
      the playlist is one place lower so their relative order is kept, other playlists are
      untouched, and positions 0..n-1 become 0..n. */
  lemma AddTrackOnTop(t: Tables, id: string, userId: string, body: Option<NewTrack>, n: nat)
    requires AddTrack(t, id, userId, body).0.Done?
    ensures var t' := AddTrack(t, id, userId, body).1;
      && |t'.tracks| == |t.tracks| + 1
      && t'.tracks[|t.tracks|] == TopRow(id, body.value)
      && (forall i :: 0 <= i < |t.tracks| && t.tracks[i].playlistId != id ==> t'.tracks[i] == t.tracks[i])
      && (forall i :: 0 <= i < |t.tracks| && t.tracks[i].playlistId == id ==>
            t'.tracks[i] == t.tracks[i].(position := t.tracks[i].position + 1))
      && (forall i, j :: 0 <= i < |t.tracks| && 0 <= j < |t.tracks| && t.tracks[i].playlistId == id && t.tracks[j].playlistId == id ==>
            (t.tracks[i].position < t.tracks[j].position <==> t'.tracks[i].position < t'.tracks[j].position))
      && (IsRange(Positions(t.tracks, id), n) ==> IsRange(Positions(t'.tracks, id), n + 1))
  {
    var t' := AddTrack(t, id, userId, body).1;
    assert t'.tracks == Shift(t.tracks, id) + [TopRow(id, body.value)];
    if IsRange(Positions(t.tracks, id), n) {
      ShiftRange(t.tracks, id, n, TopRow(id, body.value));
    }
  }

  /** Shifting a playlist whose positions are 0..n-1 and adding an entry at 0 gives 0..n. */
  lemma ShiftRange(tracks: seq<TrackRow>, id: string, n: nat, top: TrackRow)
    requires IsRange(Positions(tracks, id), n)
    requires top.playlistId == id && top.position == 0
    ensures IsRange(Positions(Shift(tracks, id) + [top], id), n + 1)
  {
    var ts := Shift(tracks, id) + [top];
    forall k ensures k in Positions(ts, id) <==> 0 <= k < n + 1 {
      if 0 <= k < n + 1 {
        ShiftCovers(tracks, id, n, top, k);
      }
      if k in Positions(ts, id) {
        ShiftWithin(tracks, id, n, top, k);
      }
    }
  }

  lemma ShiftCovers(tracks: seq<TrackRow>, id: string, n: nat, top: TrackRow, k: int)
    requires IsRange(Positions(tracks, id), n)
    requires top.playlistId == id && top.position == 0
    requires 0 <= k < n + 1
    ensures k in Positions(Shift(tracks, id) + [top], id)
  {
    var ts := Shift(tracks, id) + [top];
    if k == 0 {
      assert ts[|tracks|] == top;
      assert top in ts;
    } else {
      assert k - 1 in Positions(tracks, id);
      var r :| r in tracks && r.playlistId == id && r.position == k - 1;
      var i :| 0 <= i < |tracks| && tracks[i] == r;
      assert ts[i] == r.(position := k);
      assert ts[i] in ts && ts[i].playlistId == id && ts[i].position == k;
    }
  }

  lemma ShiftWithin(tracks: seq<TrackRow>, id: string, n: nat, top: TrackRow, k: int)
    requires IsRange(Positions(tracks, id), n)
    requires top.playlistId == id && top.position == 0
    requires k in Positions(Shift(tracks, id) + [top], id)
    ensures 0 <= k < n + 1
  {
    var ts := Shift(tracks, id) + [top];
    var r :| r in ts && r.playlistId == id && r.position == k;
    var i :| 0 <= i < |ts| && ts[i] == r;
    if i < |tracks| {
      assert tracks[i].position in Positions(tracks, id);
    }
  }

  /** `DELETE /:id/tracks/:trackId`: 404 unless the playlist is the user's, 404 when the track is
      not in it (the delete's record-not-found error); otherwise that one entry goes. The other
      entries keep their positions. */
  function RemoveTrack(t: Tables, id: string, userId: string, trackId: string): (Reply<bool>, Tables) {
    if !Owns(t.playlists, id, userId) then (Refused(404, "Playlist not found"), t)
    else if !HasTrack(t.tracks, id, trackId) then (Refused(404, "Track not found in playlist"), t)
    else (Done(true), t.(tracks := RemoveEntry(t.tracks, id, trackId)))
  }

  function RemoveEntry(tracks: seq<TrackRow>, playlistId: string, trackId: string): (r: seq<TrackRow>)
    ensures forall x :: x in r <==> x in tracks && !(x.playlistId == playlistId && x.trackId == trackId)
  {
    if tracks == [] then []
    else (if tracks[0].playlistId == playlistId && tracks[0].trackId == trackId then [] else [tracks[0]])
         + RemoveEntry(tracks[1..], playlistId, trackId)
  }

  /** Removing answers 404 exactly when the user does not own the playlist or the track is not in
      it, and then changes nothing; afterwards the track is no longer in the playlist. */
  lemma RemoveTrackSpec(t: Tables, id: string, userId: string, trackId: string)
    ensures RemoveTrack(t, id, userId, trackId).0.Refused? <==> !Owns(t.playlists, id, userId) || !HasTrack(t.tracks, id, trackId)
    ensures RemoveTrack(t, id, userId, trackId).0.Refused? ==>
      RemoveTrack(t, id, userId, trackId).0.code == 404 && RemoveTrack(t, id, userId, trackId).1 == t
    ensures RemoveTrack(t, id, userId, trackId).0.Done? ==> !HasTrack(RemoveTrack(t, id, userId, trackId).1.tracks, id, trackId)
  {
  }

  /** The popular-tracks cache is rebuilt when more than a week has passed since the last rebuild;
      a cache that was never stamped counts as stamped at time 0. */
  function NeedsRefresh(now: int, lastUpdate: Option<int>): bool {
    now - lastUpdate.GetOr(0) > OneWeekMs
  }

  /** Once the cache is stale it stays stale until it is rebuilt. */
  lemma NeedsRefreshMonotone(now: int, later: int, lastUpdate: Option<int>)
    requires now <= later && NeedsRefresh(now, lastUpdate)
    ensures NeedsRefresh(later, lastUpdate)
  {
  }

  /** How far the fire-and-forget rebuild got: it deletes the cache, refills it, then stamps it. */
  datatype RebuildFault = RebuildOk | DeleteFailed | RefillFailed | StampFailed

  /** The popular-tracks cache: its rows and the time of its last rebuild. */
  datatype PopularCache = PopularCache(popular: seq<PopularTrack>, updated: Option<int>)

  /** `GET /discover/popular` on the cache: the new cache and the tracks shown. */
  function PopularStep(pc: PopularCache, now: int, aggregated: seq<PopularTrack>, fault: RebuildFault)
    : (PopularCache, seq<PopularTrack>)
  {
    if NeedsRefresh(now, pc.updated) then
      var rows := match fault
                  case DeleteFailed => pc.popular
                  case RefillFailed => []
                  case _ => aggregated;
      (PopularCache(rows, if fault == RebuildOk then Some(now) else pc.updated), Take(aggregated, PopularShown))
    else
      (pc, Take(pc.popular, PopularShown))
  }

  /** A completed rebuild at `now` is served for a week: any call up to a week later answers from the
      cache, without rebuilding, with the same tracks the rebuilding call showed. */
  lemma RebuildServedForAWeek(pc: PopularCache, now: int, aggregated: seq<PopularTrack>,
                              later: int, aggregated2: seq<PopularTrack>, fault2: RebuildFault)
    requires NeedsRefresh(now, pc.updated) && later <= now + OneWeekMs
    ensures var (pc1, shown1) := PopularStep(pc, now, aggregated, RebuildOk);
      var (pc2, shown2) := PopularStep(pc1, later, aggregated2, fault2);
      !NeedsRefresh(later, pc1.updated) && pc2 == pc1 && shown2 == shown1 && |shown2| <= PopularShown
  {
  }

  class PlaylistDb {
    var playlists: seq<PlaylistRow>
    var tracks: seq<TrackRow>
    var popular: seq<PopularTrack>
    var popularUpdated: Option<int>

    function Data(): Tables
      reads this
    {
      Tables(playlists, tracks)
    }

    constructor (playlists: seq<PlaylistRow>)
      ensures Data() == Tables(playlists, []) && popular == [] && popularUpdated == None
    {
      this.playlists, tracks, popular, popularUpdated := playlists, [], [], None;
    }

    /** `GET /:id`: the playlist and its entries, for its owner or when it is public; otherwise 404. */
    method GetPlaylist(id: string, userId: string) returns (r: Reply<(PlaylistRow, seq<TrackRow>)>)
      ensures r.Refused? <==> forall i :: 0 <= i < |playlists| ==> !Visible(playlists[i], id, userId)
      ensures r.Refused? ==> r == Refused(404, "Playlist not found")
      ensures r.Done? ==> Visible(r.value.0, id, userId) && r.value.0 in playlists
      ensures r.Done? ==> forall x :: x in r.value.1 <==> x in tracks && x.playlistId == id
    {
      var k := FindVisible(playlists, id, userId);
      if k < 0 {
        return Refused(404, "Playlist not found");
      }
      var entries := EntriesOf(tracks, id);
      r := Done((playlists[k], entries));
    }

    method AddTrackToPlaylist(id: string, userId: string, body: Option<NewTrack>) returns (r: Reply<TrackRow>)
      modifies this
      ensures (r, Data()) == AddTrack(old(Data()), id, userId, body)
      ensures popular == old(popular) && popularUpdated == old(popularUpdated)
    {
      var res := AddTrack(Data(), id, userId, body);
      r, tracks := res.0, res.1.tracks;
    }

    method RemoveTrackFromPlaylist(id: string, userId: string, trackId: string) returns (r: Reply<bool>)
      modifies this
      ensures (r, Data()) == RemoveTrack(old(Data()), id, userId, trackId)
      ensures popular == old(popular) && popularUpdated == old(popularUpdated)
    {
      var res := RemoveTrack(Data(), id, userId, trackId);
      r, tracks := res.0, res.1.tracks;
    }

    /** `GET /discover/popular`: when the cache is stale, the first 20 rows of the aggregation are
        returned and the cache is rebuilt from it as far as `fault` lets the rebuild get; otherwise
        the first 20 cached tracks are returned and nothing changes. */
    method DiscoverPopular(now: int, aggregated: seq<PopularTrack>, fault: RebuildFault) returns (shown: seq<PopularTrack>)
      modifies this
      ensures |shown| <= PopularShown
      ensures Data() == old(Data())
      ensures (PopularCache(popular, popularUpdated), shown) ==
              PopularStep(PopularCache(old(popular), old(popularUpdated)), now, aggregated, fault)
      ensures !NeedsRefresh(now, old(popularUpdated)) ==>
        shown == Take(old(popular), PopularShown) && popular == old(popular) && popularUpdated == old(popularUpdated)
      ensures NeedsRefresh(now, old(popularUpdated)) ==> shown == Take(aggregated, PopularShown)
      ensures NeedsRefresh(now, old(popularUpdated)) ==>
        popular == (match fault
                    case DeleteFailed => old(popular)
                    case RefillFailed => []
                    case _ => aggregated)
        && popularUpdated == (if fault == RebuildOk then Some(now) else old(popularUpdated))
    {
      if NeedsRefresh(now, popularUpdated) {
        if fault != DeleteFailed {
          popular := [];
          if fault != RefillFailed && |aggregated| > 0 {
            popular := aggregated;
          }
          if fault == RebuildOk {
            popularUpdated := Some(now);
          }
        }
        shown := Take(aggregated, PopularShown);
      } else {
        shown := Take(popular, PopularShown);
      }
    }
  }

  /** `tracks` filtered to one playlist, kept in table order. */
  method EntriesOf(tracks: seq<TrackRow>, id: string) returns (r: seq<TrackRow>)
    ensures forall x :: x in r <==> x in tracks && x.playlistId == id
  {
    r := [];
    for i := 0 to |tracks|
      invariant forall x :: x in r <==> x in tracks[..i] && x.playlistId == id
    {
      assert tracks[..i + 1] == tracks[..i] + [tracks[i]];
      if tracks[i].playlistId == id {
        r := r + [tracks[i]];
      }
    }
    assert tracks[..|tracks|] == tracks;
  }
}
