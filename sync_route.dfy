/** The local-to-cloud sync route (vercel-serverless/backend/src/routes/sync.ts): a signed-in user's
    locally kept likes and play history are written into the remote tables, skipping likes that
    already exist, and the route answers with three counters.

    The remote tables of the one user are the fields of `SyncDb`. Each database call can throw; the
    failure of item `i` is an input (`likeFault(i)`, `historyFault(j)`), and a throwing item is
    logged and skipped. Recommendation scores are floats stepping by 0.5 in the source; here they
    are integer halves (`scoreHalves == 2 * score`). */
module SyncRoute {
  import opened Common

  datatype SyncTrack = SyncTrack(videoId: string, title: string, artist: string, thumbnail: string, duration: real)

  /** The request body after validation; `Malformed` is a body the schema rejects. */
  datatype SyncBody = Body(likes: seq<SyncTrack>, history: seq<SyncTrack>) | Malformed

  datatype Stats = Stats(likesSynced: nat, historySynced: nat, duplicatesSkipped: nat)

  /** `{success: true, stats}`, or status 400 for a body that fails validation. */
  datatype Response = Synced(stats: Stats) | ValidationFailed

  /** How the calls for one like go: the lookup throws, or the create, or the recommendation upsert. */
  datatype LikeFault = LikeOk | LookupThrows | CreateThrows | LikeUpsertThrows

  /** How the calls for one history entry go. */
  datatype HistoryFault = HistoryOk | HistoryCreateThrows | HistoryUpsertThrows

  datatype RecSource = FromLike | FromPlay

  /** A recommendation row; `scoreHalves` is twice the score. */
  datatype Rec = Rec(scoreHalves: int, playCount: nat, isLiked: bool, source: RecSource)

  /** The user's remote rows: the ids of liked tracks, the like rows created (in order), the play
      history rows (in order) and the recommendation rows by track id. */
  datatype DbState = DbState(liked: set<string>, likeRows: seq<SyncTrack>, history: seq<SyncTrack>, recs: map<string, Rec>)

  const HistoryCap: nat := 100

  /** The recommendation upsert after a like: +2.0 on an existing row, else a new row scored 3.0. */
  function UpsertLike(recs: map<string, Rec>, t: SyncTrack): (r: map<string, Rec>)
    ensures r.Keys == recs.Keys + {t.videoId}
    ensures forall k :: k in recs && k != t.videoId ==> r[k] == recs[k]
    ensures r[t.videoId].isLiked && r[t.videoId].source == FromLike
    ensures t.videoId in recs ==> r[t.videoId].scoreHalves == recs[t.videoId].scoreHalves + 4
                                  && r[t.videoId].playCount == recs[t.videoId].playCount
    ensures t.videoId !in recs ==> r[t.videoId] == Rec(6, 0, true, FromLike)
  {
    if t.videoId in recs then
      var old_ := recs[t.videoId];
      recs[t.videoId := old_.(scoreHalves := old_.scoreHalves + 4, isLiked := true, source := FromLike)]
    else recs[t.videoId := Rec(6, 0, true, FromLike)]
  }

  /** The recommendation upsert after a play: +0.5 and one more play, else a new row scored 1.0. */
  function UpsertPlay(recs: map<string, Rec>, t: SyncTrack): (r: map<string, Rec>)
    ensures r.Keys == recs.Keys + {t.videoId}
    ensures forall k :: k in recs && k != t.videoId ==> r[k] == recs[k]
    ensures r[t.videoId].source == FromPlay
    ensures t.videoId in recs ==> r[t.videoId].scoreHalves == recs[t.videoId].scoreHalves + 1
                                  && r[t.videoId].playCount == recs[t.videoId].playCount + 1
                                  && r[t.videoId].isLiked == recs[t.videoId].isLiked
    ensures t.videoId !in recs ==> r[t.videoId] == Rec(2, 1, false, FromPlay)
  {
    if t.videoId in recs then
      var old_ := recs[t.videoId];
      recs[t.videoId := old_.(scoreHalves := old_.scoreHalves + 1, playCount := old_.playCount + 1, source := FromPlay)]
    else recs[t.videoId := Rec(2, 1, false, FromPlay)]
  }

  /** One pass of the likes loop. */
  function LikeStep(d: DbState, st: Stats, t: SyncTrack, f: LikeFault): (DbState, Stats) {
    if f == LookupThrows then (d, st)
    else if t.videoId in d.liked then (d, st.(duplicatesSkipped := st.duplicatesSkipped + 1))
    else if f == CreateThrows then (d, st)
    else
      var created := d.(liked := d.liked + {t.videoId}, likeRows := d.likeRows + [t]);
      if f == LikeUpsertThrows then (created, st)
      else (created.(recs := UpsertLike(d.recs, t)), st.(likesSynced := st.likesSynced + 1))
  }

  /** The likes loop over `likes`, from `d` and zero counters; like `i` meets `fault(i)`. */
  function SyncLikes(d: DbState, likes: seq<SyncTrack>, fault: nat -> LikeFault): (DbState, Stats) {
    if likes == [] then (d, Stats(0, 0, 0))
    else
      var (d1, s1) := SyncLikes(d, likes[..|likes| - 1], fault);
      LikeStep(d1, s1, likes[|likes| - 1], fault(|likes| - 1))
  }

  /** One pass of the history loop. */
  function HistoryStep(d: DbState, st: Stats, t: SyncTrack, f: HistoryFault): (DbState, Stats) {
    if f == HistoryCreateThrows then (d, st)
    else
      var created := d.(history := d.history + [t]);
      if f == HistoryUpsertThrows then (created, st)
      else (created.(recs := UpsertPlay(d.recs, t)), st.(historySynced := st.historySynced + 1))
  }

  function SyncHistory(d: DbState, st: Stats, hs: seq<SyncTrack>, fault: nat -> HistoryFault): (DbState, Stats) {
    if hs == [] then (d, st)
    else
      var (d1, s1) := SyncHistory(d, st, hs[..|hs| - 1], fault);
      HistoryStep(d1, s1, hs[|hs| - 1], fault(|hs| - 1))
  }

  /** `history.slice(-100)`: the last `min(100, |h|)` entries, in order. */
  function RecentHistory(h: seq<SyncTrack>): (r: seq<SyncTrack>)
    ensures |r| == Min(HistoryCap, |h|)
    ensures forall j :: 0 <= j < |r| ==> r[j] == h[|h| - |r| + j]
  {
    h[|h| - Min(HistoryCap, |h|)..]
  }

  /** The whole handler. */
  function Sync(d: DbState, body: SyncBody, likeFault: nat -> LikeFault, historyFault: nat -> HistoryFault)
    : (DbState, Response)
  {
    match body
    case Malformed => (d, ValidationFailed)
    case Body(likes, history) =>
      var (d1, s1) := SyncLikes(d, likes, likeFault);
      var (d2, s2) := SyncHistory(d1, s1, RecentHistory(history), historyFault);
      (d2, Synced(s2))
  }

  class SyncDb {
    var liked: set<string>
    var likeRows: seq<SyncTrack>
    var history: seq<SyncTrack>
    var recs: map<string, Rec>

    function State(): DbState
      reads this
    {
      DbState(liked, likeRows, history, recs)
    }

    constructor (d: DbState)
      ensures State() == d
    {
      liked, likeRows, history, recs := d.liked, d.likeRows, d.history, d.recs;
    }

    /** One like of the batch: look it up, create the like row, upsert the recommendation. */
    method SyncLike(t: SyncTrack, f: LikeFault, st: Stats) returns (st': Stats)
      modifies this
      ensures (State(), st') == LikeStep(old(State()), st, t, f)
    {
      st' := st;
      if f == LookupThrows {
        return;
      }
      if t.videoId in liked {
        st' := st.(duplicatesSkipped := st.duplicatesSkipped + 1);
        return;
      }
      if f == CreateThrows {
        return;
      }
      liked, likeRows := liked + {t.videoId}, likeRows + [t];
      if f == LikeUpsertThrows {
        return;
      }
      recs := UpsertLike(recs, t);
      st' := st.(likesSynced := st.likesSynced + 1);
    }

    /** One entry of the recent history: create the row, upsert the recommendation. */
    method SyncPlay(t: SyncTrack, f: HistoryFault, st: Stats) returns (st': Stats)
      modifies this
      ensures (State(), st') == HistoryStep(old(State()), st, t, f)
    {
      st' := st;
      if f == HistoryCreateThrows {
        return;
      }
      history := history + [t];
      if f == HistoryUpsertThrows {
        return;
      }
      recs := UpsertPlay(recs, t);
      st' := st.(historySynced := st.historySynced + 1);
    }

    /** The likes loop. */
    method SyncAllLikes(likes: seq<SyncTrack>, likeFault: nat -> LikeFault) returns (st: Stats)
      modifies this
      ensures (State(), st) == SyncLikes(old(State()), likes, likeFault)
    {
      st := Stats(0, 0, 0);
      for i := 0 to |likes|
        invariant (State(), st) == SyncLikes(old(State()), likes[..i], likeFault)
      {
        assert likes[..i + 1][..i] == likes[..i];
        st := SyncLike(likes[i], likeFault(i), st);
      }
      assert likes[..|likes|] == likes;
    }

    /** The history loop over the recent entries, continuing the counters `st0`. */
    method SyncAllPlays(st0: Stats, recent: seq<SyncTrack>, historyFault: nat -> HistoryFault) returns (st: Stats)
      modifies this
      ensures (State(), st) == SyncHistory(old(State()), st0, recent, historyFault)
    {
      st := st0;
      for j := 0 to |recent|
        invariant (State(), st) == SyncHistory(old(State()), st0, recent[..j], historyFault)
      {
        assert recent[..j + 1][..j] == recent[..j];
        st := SyncPlay(recent[j], historyFault(j), st);
      }
      assert recent[..|recent|] == recent;
    }

    /** `POST /sync`. */
    method HandleSync(body: SyncBody, likeFault: nat -> LikeFault, historyFault: nat -> HistoryFault)
      returns (r: Response)
      modifies this
      ensures (State(), r) == Sync(old(State()), body, likeFault, historyFault)
    {
      if body.Malformed? {
        return ValidationFailed;
      }
      var st := SyncAllLikes(body.likes, likeFault);
      st := SyncAllPlays(st, RecentHistory(body.history), historyFault);
      r := Synced(st);
    }
  }

  // ---------------------------------------------------------------------------------------------
  // Properties

  function Ids(ts: seq<SyncTrack>): set<string> {
    set t | t in ts :: t.videoId
  }

  /** Like rows and liked ids agree, and no track is liked twice. */
  ghost predicate Consistent(d: DbState) {
    (forall i, j :: 0 <= i < j < |d.likeRows| ==> d.likeRows[i].videoId != d.likeRows[j].videoId)
    && (forall i :: 0 <= i < |d.likeRows| ==> d.likeRows[i].videoId in d.liked)
  }

  /** How many of the items `0 .. n-1` meet the outcome `f`. */
  function Occurrences<F(==)>(fault: nat -> F, n: nat, f: F): (c: nat)
    ensures c <= n
    ensures (forall j :: 0 <= j < n ==> fault(j) == f) ==> c == n
  {
    if n == 0 then 0 else Occurrences(fault, n - 1, f) + (if fault(n - 1) == f then 1 else 0)
  }

  /** An item meets at most one outcome. */
  lemma {:induction false} OccurrencesDisjoint<F>(fault: nat -> F, n: nat, f: F, g: F)
    requires f != g
    ensures Occurrences(fault, n, f) + Occurrences(fault, n, g) <= n
  {
    if n > 0 {
      OccurrencesDisjoint(fault, n - 1, f, g);
    }
  }

  /** The entries of `hs` whose history row was created (the create did not throw), in order. */
  function CreatedEntries(hs: seq<SyncTrack>, fault: nat -> HistoryFault): (r: seq<SyncTrack>)
    ensures |r| + Occurrences(fault, |hs|, HistoryCreateThrows) == |hs|
    ensures forall x :: x in r ==> x in hs
    ensures (forall j :: 0 <= j < |hs| ==> fault(j) != HistoryCreateThrows) ==> r == hs
  {
    if hs == [] then []
    else
      var p := hs[..|hs| - 1];
      assert hs == p + [hs[|hs| - 1]];
      CreatedEntries(p, fault) + (if fault(|hs| - 1) == HistoryCreateThrows then [] else [hs[|hs| - 1]])
  }

  /** The rows the likes loop created, in order. */
  function NewRows(d: DbState, d1: DbState): seq<SyncTrack>
    requires |d.likeRows| <= |d1.likeRows|
  {
    d1.likeRows[|d.likeRows|..]
  }

  /** The likes loop only appends like rows, each for a track of the batch, and touches no history;
      every skipped duplicate and every created row is one entry of the batch, and only a created row
      can be counted as synced. */
  lemma {:induction false} SyncLikesCounts(d: DbState, likes: seq<SyncTrack>, fault: nat -> LikeFault)
    ensures var (d1, s1) := SyncLikes(d, likes, fault);
      |d.likeRows| <= |d1.likeRows| && d1.likeRows[..|d.likeRows|] == d.likeRows
      && d1.history == d.history && s1.historySynced == 0
      && s1.likesSynced <= |d1.likeRows| - |d.likeRows|
      && |d1.likeRows| - |d.likeRows| + s1.duplicatesSkipped <= |likes|
      && (forall i :: |d.likeRows| <= i < |d1.likeRows| ==> d1.likeRows[i] in likes)
      && s1.likesSynced <= Occurrences(fault, |likes|, LikeOk)
      && |d1.likeRows| - |d.likeRows| + s1.duplicatesSkipped + Occurrences(fault, |likes|, LookupThrows) <= |likes|
  {
    if likes != [] {
      var p := likes[..|likes| - 1];
      SyncLikesCounts(d, p, fault);
      var (d1, s1) := SyncLikes(d, p, fault);
      FailedLikeUncounted(d1, s1, likes[|likes| - 1], fault(|likes| - 1));
      assert forall x :: x in p ==> x in likes;
    }
  }

  /** A like whose lookup throws, or that is new and whose create or upsert throws, is counted
      neither as synced nor as a duplicate; a throwing lookup or create writes nothing. */
  lemma FailedLikeUncounted(d: DbState, st: Stats, t: SyncTrack, f: LikeFault)
    ensures f == LookupThrows || (t.videoId !in d.liked && f != LikeOk) ==> LikeStep(d, st, t, f).1 == st
    ensures f == LookupThrows || f == CreateThrows ==> LikeStep(d, st, t, f).0 == d
    ensures f == LikeOk && t.videoId !in d.liked ==>
      LikeStep(d, st, t, f).1 == st.(likesSynced := st.likesSynced + 1)
  {
  }

  /** A history entry is counted only when both its create and its upsert succeed; a throwing
      create writes nothing, and a throwing upsert keeps the created row. */
  lemma FailedPlayUncounted(d: DbState, st: Stats, t: SyncTrack, f: HistoryFault)
    ensures f != HistoryOk ==> HistoryStep(d, st, t, f).1 == st
    ensures f == HistoryOk ==> HistoryStep(d, st, t, f).1 == st.(historySynced := st.historySynced + 1)
    ensures f == HistoryCreateThrows ==> HistoryStep(d, st, t, f).0 == d
    ensures f != HistoryCreateThrows ==> HistoryStep(d, st, t, f).0.history == d.history + [t]
  {
  }

  /** The liked ids grow by exactly the ids of the rows created, and those rows are for tracks that
      were not liked before and never repeat an id: a track is created at most once per batch. */
  lemma {:induction false} SyncLikesConsistent(d: DbState, likes: seq<SyncTrack>, fault: nat -> LikeFault)
    requires Consistent(d)
    ensures var (d1, s1) := SyncLikes(d, likes, fault);
      |d.likeRows| <= |d1.likeRows| && Consistent(d1)
      && d1.liked == d.liked + Ids(NewRows(d, d1))
      && (forall i :: |d.likeRows| <= i < |d1.likeRows| ==> d1.likeRows[i].videoId !in d.liked)
  {
    if likes != [] {
      var p := likes[..|likes| - 1];
      SyncLikesConsistent(d, p, fault);
      var (d1, s1) := SyncLikes(d, p, fault);
      LikeStepConsistent(d, d1, s1, likes[|likes| - 1], fault(|likes| - 1));
    }
  }

  /** One pass of the likes loop keeps the like rows consistent with the liked ids. */
  lemma LikeStepConsistent(d: DbState, d1: DbState, s1: Stats, t: SyncTrack, f: LikeFault)
    requires Consistent(d1) && |d.likeRows| <= |d1.likeRows|
    requires d1.liked == d.liked + Ids(NewRows(d, d1))
    requires forall i :: |d.likeRows| <= i < |d1.likeRows| ==> d1.likeRows[i].videoId !in d.liked
    ensures var d2 := LikeStep(d1, s1, t, f).0;
      |d.likeRows| <= |d2.likeRows| && Consistent(d2)
      && d2.liked == d.liked + Ids(NewRows(d, d2))
      && (forall i :: |d.likeRows| <= i < |d2.likeRows| ==> d2.likeRows[i].videoId !in d.liked)
  {
    var d2 := LikeStep(d1, s1, t, f).0;
    if d2.likeRows != d1.likeRows {
      assert t.videoId !in d1.liked;
      assert d2.likeRows == d1.likeRows + [t] && d2.liked == d1.liked + {t.videoId};
      forall i, j | 0 <= i < j < |d2.likeRows| ensures d2.likeRows[i].videoId != d2.likeRows[j].videoId {
        if j == |d1.likeRows| {
          assert d2.likeRows[i] == d1.likeRows[i];
          assert d1.likeRows[i].videoId in d1.liked;
        }
      }
      assert NewRows(d, d2) == NewRows(d, d1) + [t];
      IdsAppend(NewRows(d, d1), t);
    } else {
      assert d2.liked == d1.liked;
    }
  }

  lemma IdsAppend(ts: seq<SyncTrack>, t: SyncTrack)
    ensures Ids(ts + [t]) == Ids(ts) + {t.videoId}
  {
    assert forall u :: u in ts + [t] <==> u in ts || u == t;
  }

  /** A like whose track is already liked creates nothing and counts as a duplicate (unless its
      lookup throws). */
  lemma DuplicateLike(d: DbState, st: Stats, t: SyncTrack, f: LikeFault)
    requires t.videoId in d.liked && f != LookupThrows
    ensures LikeStep(d, st, t, f) == (d, st.(duplicatesSkipped := st.duplicatesSkipped + 1))
  {
  }

  /** Without failures the likes loop creates exactly the ids not yet liked, and every entry of the
      batch is either synced or a duplicate. */
  lemma {:induction false} SyncLikesNoFaults(d: DbState, likes: seq<SyncTrack>, fault: nat -> LikeFault)
    requires forall i :: 0 <= i < |likes| ==> fault(i) == LikeOk
    ensures var (d1, s1) := SyncLikes(d, likes, fault);
      d1.liked == d.liked + Ids(likes)
      && s1.likesSynced + s1.duplicatesSkipped == |likes|
      && s1.likesSynced == |d1.likeRows| - |d.likeRows|
  {
    if likes != [] {
      var p := likes[..|likes| - 1];
      SyncLikesNoFaults(d, p, fault);
      assert Ids(likes) == Ids(p) + {likes[|likes| - 1].videoId} by {
        assert likes == p + [likes[|likes| - 1]];
      }
    }
  }

  /** One pass per entry: the history gains the created entries and the count the fully
      successful ones; nothing else changes. */
  lemma {:induction false} SyncHistoryAppends(d: DbState, st: Stats, hs: seq<SyncTrack>, fault: nat -> HistoryFault)
    ensures var (d1, s1) := SyncHistory(d, st, hs, fault);
      d1.history == d.history + CreatedEntries(hs, fault)
      && s1.historySynced == st.historySynced + Occurrences(fault, |hs|, HistoryOk)
      && s1.likesSynced == st.likesSynced && s1.duplicatesSkipped == st.duplicatesSkipped
      && d1.liked == d.liked && d1.likeRows == d.likeRows
  {
    if hs != [] {
      var p := hs[..|hs| - 1];
      var t := hs[|hs| - 1];
      SyncHistoryAppends(d, st, p, fault);
      var (d1, s1) := SyncHistory(d, st, p, fault);
      FailedPlayUncounted(d1, s1, t, fault(|hs| - 1));
      if fault(|hs| - 1) != HistoryCreateThrows {
        assert CreatedEntries(hs, fault) == CreatedEntries(p, fault) + [t];
        assert d.history + CreatedEntries(hs, fault) == d.history + CreatedEntries(p, fault) + [t];
      }
    }
  }

  /** The history loop appends exactly the entries whose create did not throw, in order and without
      de-duplication, and counts exactly the entries whose create and upsert both succeeded; without
      failures it appends and counts every entry. */
  lemma SyncHistorySpec(d: DbState, st: Stats, hs: seq<SyncTrack>, fault: nat -> HistoryFault)
    ensures var (d1, s1) := SyncHistory(d, st, hs, fault);
      d1.history == d.history + CreatedEntries(hs, fault)
      && s1.historySynced == st.historySynced + Occurrences(fault, |hs|, HistoryOk)
      && |d.history| <= |d1.history| <= |d.history| + |hs| && d1.history[..|d.history|] == d.history
      && st.historySynced <= s1.historySynced <= st.historySynced + (|d1.history| - |d.history|)
      && s1.likesSynced == st.likesSynced && s1.duplicatesSkipped == st.duplicatesSkipped
      && d1.liked == d.liked && d1.likeRows == d.likeRows
      && ((forall j :: 0 <= j < |hs| ==> fault(j) == HistoryOk) ==>
            d1.history == d.history + hs && s1.historySynced == st.historySynced + |hs|)
  {
    SyncHistoryAppends(d, st, hs, fault);
    OccurrencesDisjoint(fault, |hs|, HistoryOk, HistoryCreateThrows);
    var created := CreatedEntries(hs, fault);
    assert (d.history + created)[..|d.history|] == d.history;
  }

  /** The whole route: counters bounded by the batch and the 100-entry cap, no like created twice;
      a like counts as synced only when all its calls succeed and a throwing lookup counts toward
      neither counter; the history gains exactly the last 100 entries whose create did not throw and
      counts exactly those whose create and upsert both succeeded; without any failure, every like is
      synced or skipped and exactly the last `min(100, |history|)` entries are appended in order. */
  lemma {:induction false} SyncSpec(d: DbState, likes: seq<SyncTrack>, history: seq<SyncTrack>,
                   likeFault: nat -> LikeFault, historyFault: nat -> HistoryFault)
    requires Consistent(d)
    ensures var (d2, r) := Sync(d, Body(likes, history), likeFault, historyFault);
      r.Synced? && Consistent(d2)
      && r.stats.likesSynced + r.stats.duplicatesSkipped <= |likes|
      && r.stats.historySynced <= Min(HistoryCap, |history|)
      && |d.history| <= |d2.history| <= |d.history| + Min(HistoryCap, |history|)
      && d2.history[..|d.history|] == d.history
      && ((forall i :: 0 <= i < |likes| ==> likeFault(i) == LikeOk) ==>
            d2.liked == d.liked + Ids(likes) && r.stats.likesSynced + r.stats.duplicatesSkipped == |likes|)
      && r.stats.likesSynced <= Occurrences(likeFault, |likes|, LikeOk)
      && r.stats.duplicatesSkipped + Occurrences(likeFault, |likes|, LookupThrows) <= |likes|
      && d2.history == d.history + CreatedEntries(RecentHistory(history), historyFault)
      && r.stats.historySynced == Occurrences(historyFault, Min(HistoryCap, |history|), HistoryOk)
      && ((forall j :: 0 <= j < Min(HistoryCap, |history|) ==> historyFault(j) == HistoryOk) ==>
            d2.history == d.history + history[|history| - Min(HistoryCap, |history|)..]
            && r.stats.historySynced == Min(HistoryCap, |history|))
  {
    SyncLikesCounts(d, likes, likeFault);
    SyncLikesConsistent(d, likes, likeFault);
    var (d1, s1) := SyncLikes(d, likes, likeFault);
    SyncHistorySpec(d1, s1, RecentHistory(history), historyFault);
    if forall i :: 0 <= i < |likes| ==> likeFault(i) == LikeOk {
      SyncLikesNoFaults(d, likes, likeFault);
    }
  }

  /** A body that fails validation is answered with 400 and writes nothing. */
  lemma MalformedRejected(d: DbState, likeFault: nat -> LikeFault, historyFault: nat -> HistoryFault)
    ensures Sync(d, Malformed, likeFault, historyFault) == (d, ValidationFailed)
  {
  }

  function NoLikeFault(i: nat): LikeFault { LikeOk }

  function NoHistoryFault(j: nat): HistoryFault { HistoryOk }

  /** A batch that likes `a` twice while `b` is already liked remotely: `a` is created once and both
      the repeat and `b` count as duplicates. */
  lemma RepeatedLikeInOneBatch(a: SyncTrack, b: SyncTrack)
    requires a.videoId != b.videoId
    ensures var d := DbState({b.videoId}, [], [], map[]);
      var (d1, r) := Sync(d, Body([a, b, a], []), NoLikeFault, NoHistoryFault);
      r == Synced(Stats(1, 0, 2)) && d1.likeRows == [a] && d1.liked == {a.videoId, b.videoId}
  {
    var d := DbState({b.videoId}, [], [], map[]);
    assert [a, b, a][..2] == [a, b];
    assert [a, b][..1] == [a];
    assert [a][..0] == [];
    var d1 := d.(liked := {b.videoId, a.videoId}, likeRows := [a], recs := UpsertLike(map[], a));
    assert SyncLikes(d, [], NoLikeFault) == (d, Stats(0, 0, 0));
    assert d.likeRows + [a] == [a];
    assert d.liked + {a.videoId} == {b.videoId, a.videoId};
    assert LikeStep(d, Stats(0, 0, 0), a, NoLikeFault(0)) == (d1, Stats(1, 0, 0));
    assert SyncLikes(d, [a], NoLikeFault) == (d1, Stats(1, 0, 0));
    assert SyncLikes(d, [a, b], NoLikeFault) == (d1, Stats(1, 0, 1));
    assert SyncLikes(d, [a, b, a], NoLikeFault) == (d1, Stats(1, 0, 2));
    assert RecentHistory([]) == [];
  }
}
