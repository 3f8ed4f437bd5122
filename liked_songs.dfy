/** The liked-songs list: an in-memory list of tracks kept free of repeated
    ids by its own updaters. */
module LikedSongs {
  import opened Seqs
  import opened Tracks

  /** `isLiked(songId)`: some liked track carries the id. */
  function IsLiked(liked: seq<Track>, songId: string): (r: bool)
    ensures r <==> exists i :: 0 <= i < |liked| && liked[i].id == songId
  {
    SomeHasId(liked, songId)
  }

  /** `addLikedSong(song)`: unchanged when a track with the same id is already
      liked, otherwise the song is appended. */
  function AddLikedSong(liked: seq<Track>, song: Track): (r: seq<Track>)
    ensures IsLiked(liked, song.id) ==> r == liked
    ensures !IsLiked(liked, song.id) ==> r == liked + [song]
  {
    if SomeHasId(liked, song.id) then liked else liked + [song]
  }

  /** `removeLikedSong(songId)`: drops every track with the id and keeps the
      rest, in order. */
  function RemoveLikedSong(liked: seq<Track>, songId: string): (r: seq<Track>)
    ensures !IsLiked(r, songId)
    ensures IsSubsequence(r, liked)
    ensures forall k :: 0 <= k < |r| ==> r[k] in liked
    ensures forall k :: 0 <= k < |liked| && liked[k].id != songId ==> liked[k] in r
    ensures forall t :: multiset(r)[t] == if t.id != songId then multiset(liked)[t] else 0
  {
    FilterMultiset(liked, (s: Track) => s.id != songId);
    Filter(liked, (s: Track) => s.id != songId)
  }

  /** After liking a song, its id is liked, and every id liked before still is. */
  lemma LikedAfterAdd(liked: seq<Track>, song: Track, other: string)
    ensures IsLiked(AddLikedSong(liked, song), song.id)
    ensures IsLiked(liked, other) ==> IsLiked(AddLikedSong(liked, song), other)
  {
    var r := AddLikedSong(liked, song);
    if !IsLiked(liked, song.id) {
      assert r[|liked|] == song;
    }
    if IsLiked(liked, other) {
      var i :| 0 <= i < |liked| && liked[i].id == other;
      assert r[i] == liked[i];
    }
  }

  /** After removing an id, exactly the other previously liked ids are liked. */
  lemma LikedAfterRemove(liked: seq<Track>, songId: string, other: string)
    ensures IsLiked(RemoveLikedSong(liked, songId), other) <==> other != songId && IsLiked(liked, other)
  {
    var r := RemoveLikedSong(liked, songId);
    if IsLiked(r, other) {
      var i :| 0 <= i < |r| && r[i].id == other;
      assert r[i] in liked;
      var j :| 0 <= j < |liked| && liked[j] == r[i];
    }
    if other != songId && IsLiked(liked, other) {
      var j :| 0 <= j < |liked| && liked[j].id == other;
      assert liked[j] in r;
      var i :| 0 <= i < |r| && r[i] == liked[j];
    }
  }

  /** Liking keeps a list without repeated ids free of them. */
  lemma AddKeepsIdsUnique(liked: seq<Track>, song: Track)
    requires UniqueIds(liked)
    ensures UniqueIds(AddLikedSong(liked, song))
  {
  }

  /** Removing from a list with one more track at its end. */
  lemma RemoveSnoc(front: seq<Track>, last: Track, songId: string)
    ensures RemoveLikedSong(front + [last], songId)
            == if last.id != songId then RemoveLikedSong(front, songId) + [last] else RemoveLikedSong(front, songId)
  {
    assert (front + [last])[..|front + [last]| - 1] == front;
  }

  /** Appending a track whose id is new keeps a list free of repeated ids. */
  lemma UniqueSnoc(kept: seq<Track>, last: Track)
    requires UniqueIds(kept)
    requires forall k :: 0 <= k < |kept| ==> kept[k].id != last.id
    ensures UniqueIds(kept + [last])
  {
  }

  /** The tracks left after removing from the front of a list without
      repeated ids all differ in id from the list's last track. */
  lemma KeptBeforeLast(front: seq<Track>, last: Track, songId: string)
    requires UniqueIds(front + [last])
    ensures forall k :: 0 <= k < |RemoveLikedSong(front, songId)| ==> RemoveLikedSong(front, songId)[k].id != last.id
  {
    var kept := RemoveLikedSong(front, songId);
    var all := front + [last];
    forall k | 0 <= k < |kept| ensures kept[k].id != last.id {
      assert kept[k] in front;
      var j :| 0 <= j < |front| && front[j] == kept[k];
      assert all[j] == front[j] && all[|front|] == last;
    }
  }

  /** Removing keeps a list without repeated ids free of them. */
  lemma {:induction false} RemoveKeepsIdsUnique(liked: seq<Track>, songId: string)
    requires UniqueIds(liked)
    ensures UniqueIds(RemoveLikedSong(liked, songId))
  {
    if liked != [] {
      var front, last := liked[..|liked| - 1], liked[|liked| - 1];
      assert liked == front + [last];
      assert UniqueIds(front);
      RemoveKeepsIdsUnique(front, songId);
      RemoveSnoc(front, last, songId);
      if last.id != songId {
        KeptBeforeLast(front, last, songId);
        UniqueSnoc(RemoveLikedSong(front, songId), last);
      }
    }
  }

  /** Whether an id is liked depends only on the ids in the list, never on
      the tracks' other fields. */
  lemma {:induction false} IsLikedDependsOnIds(a: seq<Track>, b: seq<Track>, songId: string)
    requires Ids(a) == Ids(b)
    ensures IsLiked(a, songId) == IsLiked(b, songId)
  {
    if a != [] {
      assert Ids(a[1..]) == Ids(b[1..]) by {
        assert |a| == |Ids(a)| == |Ids(b)| == |b|;
        forall k | 0 <= k < |a| - 1 ensures a[1..][k].id == b[1..][k].id {
          assert Ids(a)[k + 1] == Ids(b)[k + 1];
        }
      }
      assert Ids(a)[0] == Ids(b)[0];
      IsLikedDependsOnIds(a[1..], b[1..], songId);
    }
  }
}
