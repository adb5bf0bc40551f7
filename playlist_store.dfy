/** The client's playlist store (vercel-serverless/frontend/src/lib/playlistStore.ts): the user's
    playlists with their track counts, kept up to date after each request without refetching.

    Whether a token is present, the time, and what the server answered are parameters; a method that
    throws in the source returns the error instead, before any state change. */
module PlaylistStore {
  import opened Common

  /** A playlist as the store lists it; `trackCount` is `_count?.tracks`, which may be absent. */
  datatype Playlist = Playlist(id: string, userId: string, name: string, isPublic: bool, trackCount: Option<int>)

  const MaxPlaylists: nat := 15
  const FetchWindowMs: int := 5000

  /** `(count || 0) + 1`. */
  function Incremented(c: Option<int>): int {
    c.GetOr(0) + 1
  }

  /** `Math.max(0, (count || 1) - 1)`: a missing or zero count reads as 1. */
  function Decremented(c: Option<int>): (n: int)
    ensures n >= 0
    ensures c.Some? && c.value >= 1 ==> n == c.value - 1
    ensures c.None? || c.value <= 1 ==> n == 0
  {
    var base := if c.None? || c.value == 0 then 1 else c.value;
    if base - 1 < 0 then 0 else base - 1
  }

  /** The playlists after a track was added to `id`: only its count moves, up by one. */
  function IncrementCount(ps: seq<Playlist>, id: string): (r: seq<Playlist>)
    ensures |r| == |ps|
    ensures forall i :: 0 <= i < |ps| && ps[i].id != id ==> r[i] == ps[i]
    ensures forall i :: 0 <= i < |ps| && ps[i].id == id ==>
      r[i] == ps[i].(trackCount := Some(ps[i].trackCount.GetOr(0) + 1))
  {
    if ps == [] then []
    else [if ps[0].id == id then ps[0].(trackCount := Some(Incremented(ps[0].trackCount))) else ps[0]]
         + IncrementCount(ps[1..], id)
  }

  /** The playlists after a track was removed from `id`: only its count moves, down by one and
      never below zero. */
  function DecrementCount(ps: seq<Playlist>, id: string): (r: seq<Playlist>)
    ensures |r| == |ps|
    ensures forall i :: 0 <= i < |ps| && ps[i].id != id ==> r[i] == ps[i]
    ensures forall i :: 0 <= i < |ps| && ps[i].id == id ==>
      r[i] == ps[i].(trackCount := Some(Decremented(ps[i].trackCount))) && r[i].trackCount.value >= 0
  {
    if ps == [] then []
    else [if ps[0].id == id then ps[0].(trackCount := Some(Decremented(ps[0].trackCount))) else ps[0]]
         + DecrementCount(ps[1..], id)
  }

  /** Adding and then removing a track gives the counts back, a missing count coming back as 0. */
  lemma AddThenRemoveTrack(ps: seq<Playlist>, id: string)
    requires forall i :: 0 <= i < |ps| && ps[i].id == id ==> ps[i].trackCount.GetOr(0) >= 0
    ensures var r := DecrementCount(IncrementCount(ps, id), id);
      |r| == |ps|
      && forall i :: 0 <= i < |ps| ==>
           r[i] == if ps[i].id == id then ps[i].(trackCount := Some(ps[i].trackCount.GetOr(0))) else ps[i]
  {
    var up := IncrementCount(ps, id);
    var r := DecrementCount(up, id);
    forall i | 0 <= i < |ps|
      ensures r[i] == if ps[i].id == id then ps[i].(trackCount := Some(ps[i].trackCount.GetOr(0))) else ps[i]
    {
      if ps[i].id == id {
        assert up[i].trackCount == Some(ps[i].trackCount.GetOr(0) + 1);
      }
    }
  }

  /** The store's fields. */
  datatype StoreData = StoreData(playlists: seq<Playlist>, loading: bool, lastFetch: Option<int>)

  class PlaylistStore {
    var playlists: seq<Playlist>
    var loading: bool
    var lastFetch: Option<int>

    function Data(): StoreData
      reads this
    {
      StoreData(playlists, loading, lastFetch)
    }

    constructor ()
      ensures Data() == StoreData([], false, None)
    {
      playlists, loading, lastFetch := [], false, None;
    }

    /** `fetchPlaylists(force)`. `ok` is whether the request resolved with an ok response; `data` is
        the list it carried. */
    method FetchPlaylists(force: bool, token: bool, now: int, ok: bool, data: seq<Playlist>)
      modifies this
      ensures !token || Throttled(force, old(lastFetch), now, FetchWindowMs) ==> Data() == old(Data())
      ensures token && !Throttled(force, old(lastFetch), now, FetchWindowMs) ==>
        Data() == if ok then StoreData(data, false, Some(now)) else old(Data()).(loading := false)
    {
      if !token {
        return;
      }
      if !force && lastFetch.Some? && lastFetch.value != 0 && now - lastFetch.value < FetchWindowMs {
        return;
      }
      loading := true;
      if ok {
        playlists, loading, lastFetch := data, false, Some(now);
      } else {
        loading := false;
      }
    }

    /** `createPlaylist(...)`: refused without a token or once 15 playlists exist; the created one
        goes first, and the next fetch is no longer throttled. */
    method CreatePlaylist(token: bool, ok: bool, created: Playlist) returns (r: Result<Playlist>)
      modifies this
      ensures !token ==> r == Failure("Not authenticated") && Data() == old(Data())
      ensures token && |old(playlists)| >= MaxPlaylists ==>
        r == Failure("Maximum 15 playlists allowed") && Data() == old(Data())
      ensures token && |old(playlists)| < MaxPlaylists && !ok ==>
        r == Failure("Failed to create playlist") && Data() == old(Data())
      ensures token && |old(playlists)| < MaxPlaylists && ok ==>
        r == Ok(created) && Data() == old(Data()).(playlists := [created] + old(playlists), lastFetch := None)
      ensures |old(playlists)| < MaxPlaylists ==> |playlists| <= MaxPlaylists
    {
      if !token {
        return Failure("Not authenticated");
      }
      if |playlists| >= MaxPlaylists {
        return Failure("Maximum 15 playlists allowed");
      }
      if !ok {
        return Failure("Failed to create playlist");
      }
      playlists, lastFetch := [created] + playlists, None;
      r := Ok(created);
    }

    /** `addTrackToPlaylist(playlistId, track)`; `serverError` is the error the server reported. */
    method AddTrackToPlaylist(playlistId: string, token: bool, ok: bool, serverError: Option<string>)
      returns (thrown: Option<string>)
      modifies this
      ensures !token ==> thrown == Some("Not authenticated") && Data() == old(Data())
      ensures token && !ok ==>
        thrown == Some(ErrorMessage(serverError, "Failed to add track to playlist")) && Data() == old(Data())
      ensures token && ok ==> thrown.None? && Data() == old(Data()).(playlists := IncrementCount(old(playlists), playlistId))
    {
      if !token {
        return Some("Not authenticated");
      }
      if !ok {
        return Some(ErrorMessage(serverError, "Failed to add track to playlist"));
      }
      playlists := IncrementCount(playlists, playlistId);
      thrown := None;
    }

    method RemoveTrackFromPlaylist(playlistId: string, token: bool, ok: bool) returns (thrown: Option<string>)
      modifies this
      ensures !token ==> thrown == Some("Not authenticated") && Data() == old(Data())
      ensures token && !ok ==> thrown == Some("Failed to remove track from playlist") && Data() == old(Data())
      ensures token && ok ==> thrown.None? && Data() == old(Data()).(playlists := DecrementCount(old(playlists), playlistId))
    {
      if !token {
        return Some("Not authenticated");
      }
      if !ok {
        return Some("Failed to remove track from playlist");
      }
      playlists := DecrementCount(playlists, playlistId);
      thrown := None;
    }

    method DeletePlaylist(id: string, token: bool, ok: bool) returns (thrown: Option<string>)
      modifies this
      ensures !token ==> thrown == Some("Not authenticated") && Data() == old(Data())
      ensures token && !ok ==> thrown == Some("Failed to delete playlist") && Data() == old(Data())
      ensures token && ok ==> thrown.None? && Data() == old(Data()).(playlists := RemoveWhere(old(playlists), PlaylistId, id))
      ensures token && ok ==> forall p :: p in playlists <==> p in old(playlists) && p.id != id
    {
      if !token {
        return Some("Not authenticated");
      }
      if !ok {
        return Some("Failed to delete playlist");
      }
      playlists := RemoveWhere(playlists, PlaylistId, id);
      thrown := None;
    }
  }

  function PlaylistId(p: Playlist): string {
    p.id
  }
}
