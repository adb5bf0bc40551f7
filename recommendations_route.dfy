/** The recommendations route (vercel-serverless/backend/src/routes/recommendations.ts): the recently
    played list, the most played list and the top artists with a few tracks each, assembled from
    the user's play history.

    The four database queries (recent plays, the two `groupBy` aggregations and the top artists'
    plays) are inputs. */
module Recommendations {
  import opened Common
  import opened OrderedMap

  /** A `playHistory` row as the queries select it. */
  datatype PlayRow = PlayRow(trackId: string, title: string, artist: string, thumbnail: Option<string>)

  /** A track in the response; the history does not store durations. */
  datatype RecTrack = RecTrack(videoId: string, title: string, artist: string, thumbnail: string, duration: int)

  /** A `groupBy` row: a track or an artist with its play count. */
  datatype Group = Group(row: PlayRow, count: int)

  datatype TopArtist = TopArtist(name: string, playCount: int, tracks: seq<RecTrack>)

  datatype Response = Response(recentlyPlayed: seq<RecTrack>, mostPlayed: seq<RecTrack>, topArtists: seq<TopArtist>)

  const RecentShown: nat := 10
  const TracksPerArtist: nat := 8

  /** The response track for a row: `thumbnail || ''` and duration 0. */
  function ToRecTrack(p: PlayRow): (t: RecTrack)
    ensures t.videoId == p.trackId && t.title == p.title && t.artist == p.artist && t.duration == 0
    ensures t.thumbnail == if p.thumbnail.Some? then p.thumbnail.value else ""
  {
    RecTrack(p.trackId, p.title, p.artist, p.thumbnail.GetOr(""), 0)
  }

  function TrackIds(plays: seq<PlayRow>): (ids: seq<string>)
    ensures |ids| == |plays| && forall i :: 0 <= i < |plays| ==> ids[i] == plays[i].trackId
  {
    if plays == [] then [] else [plays[0].trackId] + TrackIds(plays[1..])
  }

  function VideoIds(ts: seq<RecTrack>): (ids: seq<string>)
    ensures |ids| == |ts| && forall i :: 0 <= i < |ts| ==> ids[i] == ts[i].videoId
  {
    if ts == [] then [] else [ts[0].videoId] + VideoIds(ts[1..])
  }

  /** `recentPlays.map(p => [p.trackId, …])`. */
  function RecentPairs(plays: seq<PlayRow>): (ps: seq<Entry<string, RecTrack>>)
    ensures |ps| == |plays| && forall i :: 0 <= i < |plays| ==> ps[i] == Entry(plays[i].trackId, ToRecTrack(plays[i]))
  {
    if plays == [] then [] else [Entry(plays[0].trackId, ToRecTrack(plays[0]))] + RecentPairs(plays[1..])
  }

  /** `Array.from(new Map(pairs).values()).slice(0, 10)`. */
  function RecentlyPlayed(plays: seq<PlayRow>): seq<RecTrack> {
    Take(Values(Build(RecentPairs(plays))), RecentShown)
  }

  predicate IdMatches(k: string, v: RecTrack) {
    v.videoId == k && v.duration == 0
  }

  /** The recently played list has at most 10 tracks and no video twice; its ids are the plays'
      distinct ids in order of first occurrence (the most recent play, as the plays come newest
      first), and each track carries the data of the last occurrence of its id. */
  lemma RecentlyPlayedSpec(plays: seq<PlayRow>)
    ensures var r := RecentlyPlayed(plays);
      && |r| <= RecentShown
      && (forall i, j :: 0 <= i < j < |r| ==> r[i].videoId != r[j].videoId)
      && (forall i :: 0 <= i < |r| ==> r[i].duration == 0)
      && VideoIds(r) == Take(FirstOccurrences(TrackIds(plays)), RecentShown)
      && (forall i :: 0 <= i < |r| ==> LastValue(RecentPairs(plays), r[i].videoId) == Some(r[i]))
  {
    var ps := RecentPairs(plays);
    var b := Build(ps);
    var r := RecentlyPlayed(plays);
    BuildDistinct(ps);
    forall i | 0 <= i < |r|
      ensures r[i].videoId == b[i].key && r[i].duration == 0
      ensures LastValue(ps, r[i].videoId) == Some(r[i])
    {
      RecentEntry(plays, i);
    }
    forall i, j | 0 <= i < j < |r| ensures r[i].videoId != r[j].videoId {
      assert b[i].key != b[j].key;
    }
    RecentIds(plays);
  }

  lemma RecentIds(plays: seq<PlayRow>)
    ensures VideoIds(RecentlyPlayed(plays)) == Take(FirstOccurrences(TrackIds(plays)), RecentShown)
  {
    var ps := RecentPairs(plays);
    var b := Build(ps);
    var r := RecentlyPlayed(plays);
    BuildKeys(ps);
    assert Keys(ps) == TrackIds(plays);
    BuildKeepsPairs(ps, IdMatches);
    var ks := Keys(b);
    assert |r| <= |b|;
    forall i | 0 <= i < |r| ensures VideoIds(r)[i] == ks[i] {
      assert r[i] == Values(b)[i] == b[i].value;
      assert IdMatches(b[i].key, b[i].value);
    }
    assert VideoIds(r) == ks[..|r|];
  }

  /** The `i`th recently played track is the `i`th entry of the built map. */
  lemma RecentEntry(plays: seq<PlayRow>, i: int)
    requires 0 <= i < |RecentlyPlayed(plays)|
    ensures var b := Build(RecentPairs(plays));
      && i < |b|
      && RecentlyPlayed(plays)[i] == b[i].value
      && RecentlyPlayed(plays)[i].videoId == b[i].key
      && RecentlyPlayed(plays)[i].duration == 0
      && LastValue(RecentPairs(plays), b[i].key) == Some(b[i].value)
  {
    var ps := RecentPairs(plays);
    var b := Build(ps);
    assert RecentlyPlayed(plays)[i] == Values(b)[i];
    BuildDistinct(ps);
    BuildGet(ps);
    BuildKeepsPairs(ps, IdMatches);
    assert IdMatches(b[i].key, b[i].value);
    IndexGet(b, i);
  }

  /** `artistTracks.some(at => at.videoId === id)`. */
  predicate HasId(ts: seq<RecTrack>, id: string) {
    exists k :: 0 <= k < |ts| && ts[k].videoId == id
  }

  type ArtistMap = seq<Entry<string, seq<RecTrack>>>

  /** One pass of the grouping loop: create the artist's list if missing, then push the track unless
      the list already holds its video or has 8 entries. */
  function GroupStep(m: ArtistMap, p: PlayRow): (r: ArtistMap)
    ensures Get(r, p.artist).Some?
    ensures forall a :: a != p.artist ==> Get(r, a) == Get(m, a)
  {
    InKeysGet(m, p.artist);
    var m1 := if p.artist in Keys(m) then m else Set(m, p.artist, []);
    var cur := Get(m1, p.artist).value;
    var t := ToRecTrack(p);
    if !HasId(cur, t.videoId) && |cur| < TracksPerArtist then Set(m1, p.artist, cur + [t]) else m1
  }

  /** The map after the loop has seen `rows`. */
  function Grouped(rows: seq<PlayRow>): ArtistMap {
    if rows == [] then [] else GroupStep(Grouped(rows[..|rows| - 1]), rows[|rows| - 1])
  }

  /** One row of the grouping loop: look the artist up, create the list if missing, push. */
  method GroupRow(m0: ArtistMap, p: PlayRow) returns (m: ArtistMap)
    ensures m == GroupStep(m0, p)
  {
    m := m0;
    var t := ToRecTrack(p);
    if Find(m, p.artist) < 0 {
      m := Set(m, p.artist, []);
    }
    assert m == (if p.artist in Keys(m0) then m0 else Set(m0, p.artist, []));
    var artistTracks := Get(m, p.artist).value;
    if !HasId(artistTracks, t.videoId) && |artistTracks| < TracksPerArtist {
      m := Set(m, p.artist, artistTracks + [t]);
    }
  }

  /** The loop over the top artists' plays, newest first. */
  method GroupByArtist(rows: seq<PlayRow>) returns (m: ArtistMap)
    ensures m == Grouped(rows)
  {
    m := [];
    for i := 0 to |rows|
      invariant m == Grouped(rows[..i])
    {
      assert rows[..i + 1][..i] == rows[..i];
      m := GroupRow(m, rows[i]);
    }
    assert rows[..|rows|] == rows;
  }

  /** Reference definitions: an artist's plays as response tracks, in order, and the first
      occurrence of each video among them. */
  function OfArtist(rows: seq<PlayRow>, a: string): seq<RecTrack> {
    if rows == [] then []
    else OfArtist(rows[..|rows| - 1], a) + (if rows[|rows| - 1].artist == a then [ToRecTrack(rows[|rows| - 1])] else [])
  }

  function DistinctById(ts: seq<RecTrack>): seq<RecTrack> {
    if ts == [] then []
    else
      var d := DistinctById(ts[..|ts| - 1]);
      d + (if HasId(d, ts[|ts| - 1].videoId) then [] else [ts[|ts| - 1]])
  }

  /** The tracks listed for artist `a`: the first 8 distinct videos of their plays, first seen first. */
  function ArtistTracks(rows: seq<PlayRow>, a: string): seq<RecTrack> {
    Take(DistinctById(OfArtist(rows, a)), TracksPerArtist)
  }

  /** No video twice. */
  predicate UniqueIds(ts: seq<RecTrack>) {
    forall i, j :: 0 <= i < j < |ts| ==> ts[i].videoId != ts[j].videoId
  }

  lemma {:induction false} DistinctByIdUnique(ts: seq<RecTrack>)
    ensures UniqueIds(DistinctById(ts))
  {
    if ts != [] {
      var d := DistinctById(ts[..|ts| - 1]);
      var x := ts[|ts| - 1];
      DistinctByIdUnique(ts[..|ts| - 1]);
      if !HasId(d, x.videoId) {
        var r := d + [x];
        forall i, j | 0 <= i < j < |r| ensures r[i].videoId != r[j].videoId {
          if j < |d| {
            assert r[i] == d[i] && r[j] == d[j];
          } else {
            assert r[i] == d[i] && r[j] == x && HasId(d, d[i].videoId);
          }
        }
      }
    }
  }

  /** Pushing a video onto a list capped at 8 agrees with capping the distinct list after it. */
  lemma CappedPush(d: seq<RecTrack>, x: RecTrack)
    ensures var cur := Take(d, TracksPerArtist);
      Take(d + (if HasId(d, x.videoId) then [] else [x]), TracksPerArtist)
        == if !HasId(cur, x.videoId) && |cur| < TracksPerArtist then cur + [x] else cur
  {
    var cur := Take(d, TracksPerArtist);
    if |d| >= TracksPerArtist {
      assert (d + [x])[..TracksPerArtist] == d[..TracksPerArtist];
    } else {
      assert cur == d;
    }
  }

  /** What the grouping step leaves for the row's own artist. */
  lemma GroupStepGet(m: ArtistMap, t: PlayRow)
    ensures var cur := if Get(m, t.artist).Some? then Get(m, t.artist).value else [];
      var x := ToRecTrack(t);
      Get(GroupStep(m, t), t.artist) == Some(if !HasId(cur, x.videoId) && |cur| < TracksPerArtist then cur + [x] else cur)
  {
    InKeysGet(m, t.artist);
  }

  /** The grouping step for the artist of the row, against the reference list. */
  lemma GroupStepOwnArtist(m: ArtistMap, p: seq<PlayRow>, t: PlayRow)
    requires Get(m, t.artist) == if OfArtist(p, t.artist) == [] then None else Some(ArtistTracks(p, t.artist))
    ensures Get(GroupStep(m, t), t.artist) == Some(ArtistTracks(p + [t], t.artist))
  {
    var a := t.artist;
    var rows := p + [t];
    GroupStepGet(m, t);
    var cur := if Get(m, a).Some? then Get(m, a).value else [];
    assert cur == ArtistTracks(p, a);
    var x := ToRecTrack(t);
    assert rows[..|rows| - 1] == p;
    var q := OfArtist(rows, a);
    assert q == OfArtist(p, a) + [x];
    assert q[..|q| - 1] == OfArtist(p, a);
    assert DistinctById(q) == DistinctById(OfArtist(p, a)) + (if HasId(DistinctById(OfArtist(p, a)), x.videoId) then [] else [x]);
    CappedPush(DistinctById(OfArtist(p, a)), x);
  }

  /** The loop's list for an artist is the reference list; an artist without plays has no entry. */
  lemma {:induction false} GroupedSpec(rows: seq<PlayRow>, a: string)
    ensures Get(Grouped(rows), a) == if OfArtist(rows, a) == [] then None else Some(ArtistTracks(rows, a))
  {
    if rows != [] {
      var p := rows[..|rows| - 1];
      var t := rows[|rows| - 1];
      assert rows == p + [t];
      GroupedSpec(p, a);
      var m := Grouped(p);
      assert Grouped(rows) == GroupStep(m, t);
      if t.artist == a {
        GroupStepOwnArtist(m, p, t);
      } else {
        assert OfArtist(rows, a) == OfArtist(p, a);
      }
    }
  }

  /** Per artist: no video twice and at most 8 tracks. */
  lemma ArtistTracksBounds(rows: seq<PlayRow>, a: string)
    ensures var ts := ArtistTracks(rows, a);
      |ts| <= TracksPerArtist && UniqueIds(ts)
  {
    var d := DistinctById(OfArtist(rows, a));
    DistinctByIdUnique(OfArtist(rows, a));
    var ts := ArtistTracks(rows, a);
    assert ts == d[..|ts|];
    forall i, j | 0 <= i < j < |ts| ensures ts[i].videoId != ts[j].videoId {
      assert ts[i] == d[i] && ts[j] == d[j];
    }
  }

  /** `topArtistsRaw.map(g => ({ name, playCount, tracks: tracksByArtist.get(name) || [] }))`. */
  function TopArtists(groups: seq<Group>, m: ArtistMap): (r: seq<TopArtist>)
    ensures |r| == |groups|
    ensures forall i :: 0 <= i < |groups| ==>
      r[i] == TopArtist(groups[i].row.artist, groups[i].count, Get(m, groups[i].row.artist).GetOr([]))
  {
    if groups == [] then []
    else [TopArtist(groups[0].row.artist, groups[0].count, Get(m, groups[0].row.artist).GetOr([]))]
         + TopArtists(groups[1..], m)
  }

  /** The top artists keep the aggregation's order and counts, and each lists exactly its reference
      tracks, the empty list when it has none. */
  lemma TopArtistsSpec(groups: seq<Group>, rows: seq<PlayRow>)
    ensures var r := TopArtists(groups, Grouped(rows));
      |r| == |groups|
      && forall i :: 0 <= i < |groups| ==>
           r[i] == TopArtist(groups[i].row.artist, groups[i].count, ArtistTracks(rows, groups[i].row.artist))
  {
    forall i | 0 <= i < |groups|
      ensures Get(Grouped(rows), groups[i].row.artist).GetOr([]) == ArtistTracks(rows, groups[i].row.artist)
    {
      GroupedSpec(rows, groups[i].row.artist);
    }
  }

  function MostPlayed(groups: seq<Group>): (r: seq<RecTrack>)
    ensures |r| == |groups| && forall i :: 0 <= i < |groups| ==> r[i] == ToRecTrack(groups[i].row)
  {
    if groups == [] then [] else [ToRecTrack(groups[0].row)] + MostPlayed(groups[1..])
  }

  /** `GET /`: the three lists, from the recent plays, the most played tracks, the top artists and
      the top artists' plays. */
  method Recommend(recentPlays: seq<PlayRow>, playCounts: seq<Group>, artistCounts: seq<Group>, artistPlays: seq<PlayRow>)
    returns (r: Response)
    ensures r.recentlyPlayed == RecentlyPlayed(recentPlays)
    ensures r.mostPlayed == MostPlayed(playCounts)
    ensures |r.topArtists| == |artistCounts|
    ensures forall i :: 0 <= i < |artistCounts| ==>
      r.topArtists[i] == TopArtist(artistCounts[i].row.artist, artistCounts[i].count, ArtistTracks(artistPlays, artistCounts[i].row.artist))
  {
    var recent := Take(Values(Build(RecentPairs(recentPlays))), RecentShown);
    var byArtist := GroupByArtist(if artistCounts == [] then [] else artistPlays);
    TopArtistsSpec(artistCounts, artistPlays);
    r := Response(recent, MostPlayed(playCounts), TopArtists(artistCounts, byArtist));
  }
}
