/** How a blend's tracks are chosen (`generateBlendTracks`, vercel-serverless/backend/src/routes/blends.ts):
    the four source lists are merged into a `Map` keyed by track id, with the earliest list taking
    precedence, the values are shuffled in place, and the first 50 get positions 0, 1, ….

    The four database queries are inputs (their `take` limits appear only as a lemma's hypothesis), and
    `Math.random()` is an oracle `random` whose draws lie in [0, 1). */
module BlendTracks {
  import opened Common
  import opened OrderedMap

  /** A liked-track or play-history row as the queries return it. */
  datatype UserTrack = UserTrack(trackId: string, title: string, artist: string, thumbnail: string, duration: int)

  /** A map value: the row and the user whose list it came from. */
  datatype Pick = Pick(track: UserTrack, userId: string)

  datatype BlendTrack = BlendTrack(
    blendId: string, trackId: string, title: string, artist: string, thumbnail: string, duration: int,
    sourceUserId: string, position: int)

  /** The four query results: each user's recent likes, then each user's most played tracks. */
  datatype Sources = Sources(liked1: seq<UserTrack>, liked2: seq<UserTrack>, played1: seq<UserTrack>, played2: seq<UserTrack>)

  const MaxBlendTracks: nat := 50

  type TrackMap = seq<Entry<string, Pick>>

  /** `ts.forEach(t => m.set(t.trackId, …))`: later rows overwrite earlier ones. */
  function SetAll(m: TrackMap, ts: seq<UserTrack>, u: string): (r: TrackMap)
    ensures DistinctKeys(m) ==> DistinctKeys(r)
    ensures |r| <= |m| + |ts|
  {
    if ts == [] then m
    else
      var t := ts[|ts| - 1];
      Set(SetAll(m, ts[..|ts| - 1], u), t.trackId, Pick(t, u))
  }

  /** `ts.forEach(t => { if (!m.has(t.trackId)) m.set(…) })`: a key already present is kept. */
  function AddMissing(m: TrackMap, ts: seq<UserTrack>, u: string): (r: TrackMap)
    ensures DistinctKeys(m) ==> DistinctKeys(r)
    ensures |r| <= |m| + |ts|
  {
    if ts == [] then m
    else
      var t := ts[|ts| - 1];
      var m' := AddMissing(m, ts[..|ts| - 1], u);
      if t.trackId in Keys(m') then m' else Set(m', t.trackId, Pick(t, u))
  }

  /** The map the four lists produce. */
  function Merged(src: Sources, u1: string, u2: string): (r: TrackMap)
    ensures DistinctKeys(r)
    ensures |r| <= |src.liked1| + |src.liked2| + |src.played1| + |src.played2|
  {
    AddMissing(AddMissing(AddMissing(SetAll([], src.liked1, u1), src.liked2, u2), src.played1, u1), src.played2, u2)
  }

  /** Reference definitions: the last and the first row of `ts` with id `k`. */
  function LastWithId(ts: seq<UserTrack>, k: string): (r: Option<UserTrack>)
    ensures r.Some? ==> r.value in ts && r.value.trackId == k
    ensures r.None? <==> forall t :: t in ts ==> t.trackId != k
  {
    if ts == [] then None
    else if ts[|ts| - 1].trackId == k then Some(ts[|ts| - 1])
    else
      var p := ts[..|ts| - 1];
      assert ts == p + [ts[|ts| - 1]];
      LastWithId(p, k)
  }

  function FirstWithId(ts: seq<UserTrack>, k: string): (r: Option<UserTrack>)
    ensures r.Some? ==> r.value in ts && r.value.trackId == k
    ensures r.None? <==> forall t :: t in ts ==> t.trackId != k
  {
    if ts == [] then None
    else
      var p := ts[..|ts| - 1];
      assert ts == p + [ts[|ts| - 1]];
      var f := FirstWithId(p, k);
      if f.Some? then f else if ts[|ts| - 1].trackId == k then Some(ts[|ts| - 1]) else None
  }

  /** Reference definition of the precedence: the row for `k` and its source user come from the
      first list that holds `k`, in the order user 1 liked, user 2 liked, user 1 played, user 2
      played; within user 1's likes the last row wins, elsewhere the first. */
  function SourceOf(k: string, src: Sources, u1: string, u2: string): (r: Option<Pick>)
    ensures r.Some? ==> r.value.track.trackId == k
    ensures r.Some? ==> (r.value.track in src.liked1 && r.value.userId == u1)
                        || (r.value.track in src.liked2 && r.value.userId == u2)
                        || (r.value.track in src.played1 && r.value.userId == u1)
                        || (r.value.track in src.played2 && r.value.userId == u2)
    ensures r.None? <==> forall t :: t in src.liked1 + src.liked2 + src.played1 + src.played2 ==> t.trackId != k
  {
    var a := LastWithId(src.liked1, k);
    var b := FirstWithId(src.liked2, k);
    var c := FirstWithId(src.played1, k);
    var d := FirstWithId(src.played2, k);
    if a.Some? then Some(Pick(a.value, u1))
    else if b.Some? then Some(Pick(b.value, u2))
    else if c.Some? then Some(Pick(c.value, u1))
    else if d.Some? then Some(Pick(d.value, u2))
    else None
  }

  lemma {:induction false} SetAllGet(m: TrackMap, ts: seq<UserTrack>, u: string, k: string)
    ensures Get(SetAll(m, ts, u), k) ==
      if LastWithId(ts, k).Some? then Some(Pick(LastWithId(ts, k).value, u)) else Get(m, k)
  {
    if ts != [] {
      SetAllGet(m, ts[..|ts| - 1], u, k);
    }
  }

  lemma {:induction false} AddMissingGet(m: TrackMap, ts: seq<UserTrack>, u: string, k: string)
    ensures Get(AddMissing(m, ts, u), k) ==
      if Get(m, k).Some? then Get(m, k)
      else if FirstWithId(ts, k).Some? then Some(Pick(FirstWithId(ts, k).value, u))
      else None
  {
    if ts != [] {
      var t := ts[|ts| - 1];
      var m' := AddMissing(m, ts[..|ts| - 1], u);
      AddMissingGet(m, ts[..|ts| - 1], u, k);
      InKeysGet(m', t.trackId);
    }
  }

  /** The merged map holds, for every id of the four lists and no other, the row and user the
      precedence rule names. */
  lemma MergedPrecedence(src: Sources, u1: string, u2: string, k: string)
    ensures Get(Merged(src, u1, u2), k) == SourceOf(k, src, u1, u2)
  {
    var m1 := SetAll([], src.liked1, u1);
    var m2 := AddMissing(m1, src.liked2, u2);
    var m3 := AddMissing(m2, src.played1, u1);
    SetAllGet([], src.liked1, u1, k);
    AddMissingGet(m1, src.liked2, u2, k);
    AddMissingGet(m2, src.played1, u1, k);
    AddMissingGet(m3, src.played2, u2, k);
  }

  /** A sequence without repeats has as many distinct elements as entries. */
  lemma {:induction false} DistinctCardinality(s: seq<string>)
    requires forall i, j :: 0 <= i < j < |s| ==> s[i] != s[j]
    ensures |set x | x in s| == |s|
  {
    if s != [] {
      var p := s[..|s| - 1];
      DistinctCardinality(p);
      assert s == p + [s[|s| - 1]];
      assert (set x | x in s) == (set x | x in p) + {s[|s| - 1]};
    }
  }

  /** Every id that occurs in one of the four lists. */
  function AllIds(src: Sources): set<string> {
    set t | t in src.liked1 + src.liked2 + src.played1 + src.played2 :: t.trackId
  }

  /** The merged map has one entry per distinct id. */
  lemma MergedSize(src: Sources, u1: string, u2: string)
    ensures |Merged(src, u1, u2)| == |AllIds(src)|
  {
    var m := Merged(src, u1, u2);
    var ks := Keys(m);
    forall k ensures k in ks <==> k in AllIds(src) {
      MergedPrecedence(src, u1, u2, k);
      InKeysGet(m, k);
      var r := SourceOf(k, src, u1, u2);
      if r.Some? {
        assert r.value.track in src.liked1 + src.liked2 + src.played1 + src.played2;
      }
    }
    assert (set x | x in ks) == AllIds(src);
    DistinctCardinality(ks);
  }

  /** With the queries' `take` limits (15 likes and 10 played tracks per user) the union has at most
      50 ids, so the cap never drops one. */
  lemma TakeLimitsFit(src: Sources, u1: string, u2: string)
    requires |src.liked1| <= 15 && |src.liked2| <= 15 && |src.played1| <= 10 && |src.played2| <= 10
    ensures |AllIds(src)| <= MaxBlendTracks
  {
    MergedSize(src, u1, u2);
  }

  /** `Math.floor(x * n)` for a draw `x` in [0, 1): an index below `n`. */
  function ScaledDraw(x: real, n: int): (j: int)
    requires 0.0 <= x < 1.0 && n >= 1
    ensures 0 <= j < n
  {
    assert x * n as real < n as real by {
      assert (1.0 - x) * n as real > 0.0;
    }
    (x * n as real).Floor
  }

  /** `t` holds the elements of `s`, each once: `t[k]` is `s[perm[k]]`, and `inv` undoes `perm`. */
  ghost predicate Rearranged<T>(t: seq<T>, s: seq<T>, perm: seq<int>, inv: seq<int>) {
    && |t| == |s| == |perm| == |inv|
    && (forall k :: 0 <= k < |t| ==> 0 <= perm[k] < |s| && t[k] == s[perm[k]])
    && (forall k, l :: 0 <= k < l < |t| ==> perm[k] != perm[l])
    && (forall p :: 0 <= p < |s| ==> 0 <= inv[p] < |t| && perm[inv[p]] == p)
  }
  lemma IdentityRearranged<T>(s: seq<T>)
    ensures Rearranged(s, s, seq(|s|, k => k), seq(|s|, k => k))
  {
  }
  lemma SwapRearranged<T>(b: seq<T>, s: seq<T>, perm: seq<int>, inv: seq<int>, i: int, j: int)
    requires Rearranged(b, s, perm, inv) && 0 <= i < |b| && 0 <= j < |b|
    ensures Rearranged(b[i := b[j]][j := b[i]], s, perm[i := perm[j]][j := perm[i]], inv[perm[i] := j][perm[j] := i])
  {
    var t := b[i := b[j]][j := b[i]];
    var p := perm[i := perm[j]][j := perm[i]];
    var q := inv[perm[i] := j][perm[j] := i];
    forall k | 0 <= k < |t| ensures 0 <= p[k] < |s| && t[k] == s[p[k]] {
      if k == j { } else if k == i { } else { }
    }
    forall x | 0 <= x < |s| ensures 0 <= q[x] < |t| && p[q[x]] == x {
      if x == perm[j] { } else if x == perm[i] { } else {
        assert inv[x] != i && inv[x] != j;
      }
    }
  }
  /** The Fisher-Yates loop: for `i` from the end down to 1, swap `a[i]` with `a[j]`, where
      `j = floor(random() * (i + 1))`. The result is a rearrangement of the input. */
  method Shuffle<T>(a: array<T>, random: nat -> real) returns (ghost perm: seq<int>, ghost inv: seq<int>)
    requires forall n :: 0.0 <= random(n) < 1.0
    modifies a
    ensures Rearranged(a[..], old(a[..]), perm, inv)
  {
    ghost var s := a[..];
    perm := seq(a.Length, k => k);
    inv := perm;
    IdentityRearranged(s);
    var i := a.Length - 1;
    while i > 0
      invariant -1 <= i < a.Length
      invariant Rearranged(a[..], s, perm, inv)
    {
      var j := ScaledDraw(random(i), i + 1);
      ghost var b := a[..];
      a[i], a[j] := a[j], a[i];
      assert a[..] == b[i := b[j]][j := b[i]];
      SwapRearranged(b, s, perm, inv, i, j);
      perm, inv := perm[i := perm[j]][j := perm[i]], inv[perm[i] := j][perm[j] := i];
      i := i - 1;
    }
  }

  /** `finalTracks.map((item, index) => …)`. */
  function Positioned(blendId: string, ps: seq<Pick>): (r: seq<BlendTrack>)
    ensures |r| == |ps|
    ensures forall i :: 0 <= i < |ps| ==> r[i] == ToBlendTrack(blendId, ps[i], i)
  {
    seq(|ps|, i requires 0 <= i < |ps| => ToBlendTrack(blendId, ps[i], i))
  }

  function ToBlendTrack(blendId: string, p: Pick, position: int): BlendTrack {
    BlendTrack(blendId, p.track.trackId, p.track.title, p.track.artist, p.track.thumbnail, p.track.duration,
               p.userId, position)
  }

  /** What a generated track list satisfies: at most 50 tracks, one per id of the four lists when
      there are no more than 50 ids, no id twice, positions 0, 1, …, and each track's row and
      source user chosen by the precedence rule. */
  ghost predicate Generated(created: seq<BlendTrack>, blendId: string, src: Sources, u1: string, u2: string) {
    && |created| == Min(MaxBlendTracks, |AllIds(src)|)
    && (forall i :: 0 <= i < |created| ==>
          SourceOf(created[i].trackId, src, u1, u2).Some?
          && created[i] == ToBlendTrack(blendId, SourceOf(created[i].trackId, src, u1, u2).value, i))
    && (forall i, j :: 0 <= i < j < |created| ==> created[i].trackId != created[j].trackId)
    && (|AllIds(src)| <= MaxBlendTracks ==> forall k :: k in AllIds(src) ==> exists i :: 0 <= i < |created| && created[i].trackId == k)
  }

  method SetEach(m0: TrackMap, ts: seq<UserTrack>, u: string) returns (m: TrackMap)
    ensures m == SetAll(m0, ts, u)
  {
    m := m0;
    for i := 0 to |ts|
      invariant m == SetAll(m0, ts[..i], u)
    {
      assert ts[..i + 1][..i] == ts[..i];
      m := Set(m, ts[i].trackId, Pick(ts[i], u));
    }
    assert ts[..|ts|] == ts;
  }

  method AddEachMissing(m0: TrackMap, ts: seq<UserTrack>, u: string) returns (m: TrackMap)
    ensures m == AddMissing(m0, ts, u)
  {
    m := m0;
    for i := 0 to |ts|
      invariant m == AddMissing(m0, ts[..i], u)
    {
      assert ts[..i + 1][..i] == ts[..i];
      if Find(m, ts[i].trackId) < 0 {
        m := Set(m, ts[i].trackId, Pick(ts[i], u));
      }
    }
    assert ts[..|ts|] == ts;
  }

  /** `generateBlendTracks(blendId, user1Id, user2Id)` up to the `createMany`, which the caller does. */
  method GenerateBlendTracks(blendId: string, u1: string, u2: string, src: Sources, random: nat -> real)
    returns (created: seq<BlendTrack>)
    requires forall n :: 0.0 <= random(n) < 1.0
    ensures Generated(created, blendId, src, u1, u2)
  {
    var m := MergeSources(src, u1, u2);
    var vs := Values(m);
    var shuffled, perm, inv := ShuffledCopy(vs, random);
    var n := Min(MaxBlendTracks, |shuffled|);
    created := Positioned(blendId, shuffled[..n]);
    GeneratedFromShuffle(m, vs, shuffled, perm, inv, n, created, blendId, src, u1, u2);
  }

  /** `Array.from(trackMap.values())` followed by the shuffle of that array. */
  method ShuffledCopy<T>(vs: seq<T>, random: nat -> real) returns (shuffled: seq<T>, ghost perm: seq<int>, ghost inv: seq<int>)
    requires forall n :: 0.0 <= random(n) < 1.0
    ensures Rearranged(shuffled, vs, perm, inv)
    ensures |shuffled| == |vs| && forall x :: x in shuffled <==> x in vs
  {
    var a := new T[|vs|](i requires 0 <= i < |vs| => vs[i]);
    assert a[..] == vs;
    perm, inv := Shuffle(a, random);
    shuffled := a[..];
    forall x | x in vs ensures x in shuffled {
      var p :| 0 <= p < |vs| && vs[p] == x;
      assert shuffled[inv[p]] == x;
    }
  }

  /** The four `forEach` passes that fill the track map: one entry per id of the four lists. */
  method MergeSources(src: Sources, u1: string, u2: string) returns (m: TrackMap)
    ensures m == Merged(src, u1, u2) && |m| == |AllIds(src)|
  {
    m := SetEach([], src.liked1, u1);
    m := AddEachMissing(m, src.liked2, u2);
    m := AddEachMissing(m, src.played1, u1);
    m := AddEachMissing(m, src.played2, u2);
    MergedSize(src, u1, u2);
  }

  lemma GeneratedFromShuffle(m: TrackMap, vs: seq<Pick>, shuffled: seq<Pick>, perm: seq<int>, inv: seq<int>, n: int,
                             created: seq<BlendTrack>, blendId: string, src: Sources, u1: string, u2: string)
    requires m == Merged(src, u1, u2) && vs == Values(m) && |m| == |AllIds(src)|
    requires Rearranged(shuffled, vs, perm, inv)
    requires n == Min(MaxBlendTracks, |shuffled|) && created == Positioned(blendId, shuffled[..n])
    ensures Generated(created, blendId, src, u1, u2)
  {
    MergedEntries(src, u1, u2);
    forall i | 0 <= i < |created|
      ensures created[i].trackId == m[perm[i]].key
      ensures SourceOf(created[i].trackId, src, u1, u2) == Some(shuffled[i])
      ensures created[i] == ToBlendTrack(blendId, shuffled[i], i)
    {
      assert shuffled[..n][i] == shuffled[i];
    }
    forall i, j | 0 <= i < j < |created| ensures created[i].trackId != created[j].trackId {
      assert perm[i] != perm[j];
    }
    if |AllIds(src)| <= MaxBlendTracks {
      GeneratedCovers(m, vs, shuffled, perm, inv, n, created, blendId, src, u1, u2);
    }
  }

  /** Each entry of the merged map holds the precedence rule's pick for its key. */
  lemma MergedEntries(src: Sources, u1: string, u2: string)
    ensures var m := Merged(src, u1, u2);
      forall p :: 0 <= p < |m| ==> SourceOf(m[p].key, src, u1, u2) == Some(m[p].value)
  {
    var m := Merged(src, u1, u2);
    forall p | 0 <= p < |m|
      ensures SourceOf(m[p].key, src, u1, u2) == Some(m[p].value)
    {
      IndexGet(m, p);
      MergedPrecedence(src, u1, u2, m[p].key);
    }
  }

  /** With at most 50 ids, every id of the four lists is among the generated tracks. */
  lemma GeneratedCovers(m: TrackMap, vs: seq<Pick>, shuffled: seq<Pick>, perm: seq<int>, inv: seq<int>, n: int,
                        created: seq<BlendTrack>, blendId: string, src: Sources, u1: string, u2: string)
    requires m == Merged(src, u1, u2) && vs == Values(m) && |m| == |AllIds(src)| <= MaxBlendTracks
    requires Rearranged(shuffled, vs, perm, inv)
    requires n == Min(MaxBlendTracks, |shuffled|) && created == Positioned(blendId, shuffled[..n])
    requires forall i :: 0 <= i < |created| ==> created[i].trackId == m[perm[i]].key
    ensures forall k :: k in AllIds(src) ==> exists i :: 0 <= i < |created| && created[i].trackId == k
  {
    forall k | k in AllIds(src)
      ensures exists i :: 0 <= i < |created| && created[i].trackId == k
    {
      MergedPrecedence(src, u1, u2, k);
      InKeysGet(m, k);
      var p := Find(m, k);
      var i := inv[p];
      assert created[i].trackId == k;
    }
  }
}
