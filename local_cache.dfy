/** The local persistent cache that both player stores mirror their queue, history and likes into
    (IndexedDB in the application). Its own source, lib/cache.ts, is not part of this model: each
    operation here does what its name and its call sites in the player stores imply. */
module Cache {
  import opened Common

  /** Everything the cache holds. The history stack ("reverse queue") has its top at index 0. */
  datatype CacheData = CacheData(
    queue: seq<Track>,
    reverseQueue: seq<Track>,
    liked: map<string, Track>,
    lastPlayed: Option<Track>)

  class LocalCache {
    var queue: seq<Track>
    var reverseQueue: seq<Track>
    var liked: map<string, Track>
    var lastPlayed: Option<Track>

    function Data(): CacheData
      reads this
    {
      CacheData(queue, reverseQueue, liked, lastPlayed)
    }

    constructor ()
      ensures Data() == CacheData([], [], map[], None)
    {
      queue, reverseQueue, liked, lastPlayed := [], [], map[], None;
    }

    /** `isLiked(videoId)`, answered synchronously from the in-memory mirror. */
    predicate IsLiked(videoId: string)
      reads this
    {
      videoId in liked
    }

    method AddToQueue(t: Track)
      modifies this
      ensures Data() == old(Data()).(queue := old(queue) + [t])
    {
      queue := queue + [t];
    }

    method RemoveFromQueue(i: int)
      modifies this
      ensures Data() == old(Data()).(queue := RemoveAt(old(queue), i))
    {
      queue := RemoveAt(queue, i);
    }

    method ClearQueue()
      modifies this
      ensures Data() == old(Data()).(queue := [])
    {
      queue := [];
    }

    method PushToReverseQueue(t: Track)
      modifies this
      ensures Data() == old(Data()).(reverseQueue := [t] + old(reverseQueue))
    {
      reverseQueue := [t] + reverseQueue;
    }

    /** Takes the top of the history stack; an empty stack gives nothing. */
    method PopFromReverseQueue() returns (t: Option<Track>)
      modifies this
      ensures old(reverseQueue) == [] ==> t == None && Data() == old(Data())
      ensures old(reverseQueue) != [] ==>
        t == Some(old(reverseQueue)[0]) && Data() == old(Data()).(reverseQueue := old(reverseQueue)[1..])
    {
      if reverseQueue == [] {
        t := None;
      } else {
        t := Some(reverseQueue[0]);
        reverseQueue := reverseQueue[1..];
      }
    }

    method ClearReverseQueue()
      modifies this
      ensures Data() == old(Data()).(reverseQueue := [])
    {
      reverseQueue := [];
    }

    method LikeSong(t: Track)
      modifies this
      ensures Data() == old(Data()).(liked := old(liked)[t.videoId := t])
    {
      liked := liked[t.videoId := t];
    }

    method UnlikeSong(videoId: string)
      modifies this
      ensures Data() == old(Data()).(liked := old(liked) - {videoId})
    {
      liked := liked - {videoId};
    }

    method SetLastPlayed(t: Track)
      modifies this
      ensures Data() == old(Data()).(lastPlayed := Some(t))
    {
      lastPlayed := Some(t);
    }
  }
}
