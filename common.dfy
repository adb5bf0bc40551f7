/** Value types and list helpers shared by the player stores, the client stores and the routes. */
module Common {

  datatype Option<T> = None | Some(value: T) {
    /** `x || default` for an optional value. */
    function GetOr(default: T): T {
      if Some? then value else default
    }
  }

  /** A track as the player and its local cache hold it; the duration may be missing. */
  datatype Track = Track(videoId: string, title: string, artist: string, thumbnail: string, duration: Option<real>)

  /** `track.duration || 0`: a missing duration reads as 0. */
  function DurationOrZero(t: Track): (d: real)
    ensures t.duration.None? ==> d == 0.0
    ensures t.duration.Some? ==> d == t.duration.value
  {
    t.duration.GetOr(0.0)
  }

  /** `queue.findIndex(t => t.videoId === id)`: the first index holding `id`, or -1. */
  function FindIndexById(q: seq<Track>, id: string): (r: int)
    ensures -1 <= r < |q|
    ensures r == -1 <==> forall k :: 0 <= k < |q| ==> q[k].videoId != id
    ensures 0 <= r ==> q[r].videoId == id && forall k :: 0 <= k < r ==> q[k].videoId != id
  {
    if |q| == 0 then -1
    else if q[0].videoId == id then 0
    else
      var r := FindIndexById(q[1..], id);
      if r == -1 then -1 else r + 1
  }

  /** `s.filter((_, j) => j !== i)`: drops index `i`; an index out of range drops nothing. */
  function RemoveAt<T>(s: seq<T>, i: int): (r: seq<T>)
    ensures !(0 <= i < |s|) ==> r == s
    ensures 0 <= i < |s| ==> |r| == |s| - 1
    ensures 0 <= i < |s| ==> forall k :: 0 <= k < i ==> r[k] == s[k]
    ensures 0 <= i < |s| ==> forall k :: i <= k < |r| ==> r[k] == s[k + 1]
  {
    if 0 <= i < |s| then s[..i] + s[i + 1..] else s
  }

  /** The queue after the first entry with `id` (if any) is removed. */
  function RemoveFirstById(q: seq<Track>, id: string): seq<Track> {
    RemoveAt(q, FindIndexById(q, id))
  }

  /** `r` is `q` without its first entry carrying `id`, the rest in order, and `cr` is `cq` without
      the same index; when no entry carries `id`, both are unchanged. */
  ghost predicate RemovedFirst(q: seq<Track>, cq: seq<Track>, id: string, r: seq<Track>, cr: seq<Track>) {
    && ((forall k :: 0 <= k < |q| ==> q[k].videoId != id) ==> r == q && cr == cq)
    && (forall i :: 0 <= i < |q| && q[i].videoId == id && (forall k :: 0 <= k < i ==> q[k].videoId != id) ==>
          r == q[..i] + q[i + 1..] && cr == RemoveAt(cq, i))
  }

  /** `findIndex` gives the first index carrying `id`, whichever way that index is found. */
  lemma FirstIndexUnique(q: seq<Track>, id: string, j: int)
    requires 0 <= j < |q| && q[j].videoId == id && forall k :: 0 <= k < j ==> q[k].videoId != id
    ensures FindIndexById(q, id) == j
  {
  }

  /** Removing at the index `findIndex` gives is removing the first occurrence. */
  lemma FirstIndexRemoval(q: seq<Track>, cq: seq<Track>, id: string)
    ensures var i := FindIndexById(q, id); RemovedFirst(q, cq, id, RemoveAt(q, i), RemoveAt(cq, i))
  {
    var i := FindIndexById(q, id);
    forall j | 0 <= j < |q| && q[j].videoId == id && (forall k :: 0 <= k < j ==> q[k].videoId != id)
      ensures RemoveAt(q, i) == q[..j] + q[j + 1..] && RemoveAt(cq, i) == RemoveAt(cq, j)
    {
      FirstIndexUnique(q, id, j);
    }
  }

  /** How many entries of `q` carry `id`. */
  function CountId(q: seq<Track>, id: string): nat {
    if q == [] then 0 else (if q[0].videoId == id then 1 else 0) + CountId(q[1..], id)
  }

  lemma {:induction false} CountIdZero(q: seq<Track>, id: string)
    ensures CountId(q, id) == 0 <==> forall k :: 0 <= k < |q| ==> q[k].videoId != id
  {
    if q != [] {
      CountIdZero(q[1..], id);
      assert forall k :: 1 <= k < |q| ==> q[k] == q[1..][k - 1];
    }
  }

  /** Removal of the first `id` seen from the head of the queue, one step at a time. */
  lemma RemoveFirstByIdUnfold(q: seq<Track>, id: string)
    requires q != []
    ensures q[0].videoId == id ==> RemoveFirstById(q, id) == q[1..]
    ensures q[0].videoId != id ==> RemoveFirstById(q, id) == [q[0]] + RemoveFirstById(q[1..], id)
  {
    if q[0].videoId != id {
      var r := FindIndexById(q[1..], id);
      if r != -1 {
        assert q[..r + 1] == [q[0]] + q[1..][..r];
        assert q[r + 2..] == q[1..][r + 1..];
      }
    }
  }

  /** `play` removes exactly one occurrence of the played id, and none of any other id. */
  lemma {:induction false} RemoveFirstByIdCount(q: seq<Track>, id: string, other: string)
    ensures CountId(RemoveFirstById(q, id), other) ==
      if other == id && CountId(q, id) > 0 then CountId(q, id) - 1 else CountId(q, other)
  {
    if q != [] {
      RemoveFirstByIdUnfold(q, id);
      if q[0].videoId != id {
        var rest := RemoveFirstById(q[1..], id);
        RemoveFirstByIdCount(q[1..], id, other);
        assert ([q[0]] + rest)[1..] == rest;
      }
    }
  }

  /** After removing the first entry with `id`, no entry with `id` is left exactly when there was
      at most one: a track queued twice stays queued after it is played. */
  lemma RemoveFirstByIdClears(q: seq<Track>, id: string)
    ensures (forall k :: 0 <= k < |RemoveFirstById(q, id)| ==> RemoveFirstById(q, id)[k].videoId != id)
            <==> CountId(q, id) <= 1
  {
    RemoveFirstByIdCount(q, id, id);
    CountIdZero(RemoveFirstById(q, id), id);
  }

  /** `s.filter(x => key(x) !== id)`. */
  function RemoveWhere<T>(s: seq<T>, key: T -> string, id: string): (r: seq<T>)
    ensures |r| <= |s|
    ensures forall x :: x in r ==> x in s && key(x) != id
    ensures forall x :: x in s && key(x) != id ==> x in r
    ensures (forall k :: 0 <= k < |s| ==> key(s[k]) != id) ==> r == s
  {
    if s == [] then []
    else (if key(s[0]) == id then [] else [s[0]]) + RemoveWhere(s[1..], key, id)
  }

  function Min(a: int, b: int): int {
    if a <= b then a else b
  }

  /** `s.slice(0, n)`: the first `n` elements, or all of them when there are fewer. */
  function Take<T>(s: seq<T>, n: nat): (r: seq<T>)
    ensures |r| == Min(n, |s|) && r == s[..|r|]
  {
    if |s| <= n then s else s[..n]
  }

  /** `Math.max(0, Math.min(1, v))`. */
  function Clamp01(v: real): (r: real)
    ensures 0.0 <= r <= 1.0
    ensures 0.0 <= v <= 1.0 ==> r == v
    ensures v < 0.0 ==> r == 0.0
    ensures v > 1.0 ==> r == 1.0
  {
    if v < 0.0 then 0.0 else if v > 1.0 then 1.0 else v
  }

  /** What an operation that can throw gave: its value, or the error it threw. */
  datatype Result<T> = Ok(value: T) | Failure(error: string)

  /** `error.error || fallback`: the server's message unless it is missing or empty. */
  function ErrorMessage(serverError: Option<string>, fallback: string): (m: string)
    ensures serverError.Some? && serverError.value != "" ==> m == serverError.value
    ensures serverError.None? || serverError.value == "" ==> m == fallback
  {
    if serverError.Some? && serverError.value != "" then serverError.value else fallback
  }

  /** The fetch throttle of the client stores: `!force && last && now - last < windowMs`. A time of 0
      is falsy, so it never throttles. */
  predicate Throttled(force: bool, last: Option<int>, now: int, windowMs: int) {
    !force && last.Some? && last.value != 0 && now - last.value < windowMs
  }

  /** A forced fetch and a never-fetched store always go ahead; otherwise a fetch is skipped exactly
      within the window after the last one. */
  lemma ThrottleWindow(last: Option<int>, now: int, windowMs: int)
    ensures !Throttled(true, last, now, windowMs) && !Throttled(false, None, now, windowMs)
    ensures last.Some? && last.value != 0 ==> (Throttled(false, last, now, windowMs) <==> now < last.value + windowMs)
  {
  }
}
