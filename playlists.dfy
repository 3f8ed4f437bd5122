/** The playlist list: each updater builds a new list from the previous one,
    and the library panel guards creation with a trimmed, non-empty name. */
module Playlists {
  import opened Maybe
  import opened Seqs
  import opened Text
  import opened Tracks

  /** `createdAt` is the creation time the clock reported. */
  datatype Playlist = Playlist(id: string, name: string, songs: seq<Track>, createdAt: int)

  /** `createPlaylist(name)`, with the generated UUID `freshId` and the clock reading `now`:
      exactly one empty playlist with that name is appended, the others stay as they were. */
  function CreatePlaylist(prev: seq<Playlist>, name: string, freshId: string, now: int): (r: seq<Playlist>)
    ensures |r| == |prev| + 1 && r[..|prev|] == prev
    ensures r[|prev|].name == name && r[|prev|].songs == [] && r[|prev|].id == freshId
  {
    prev + [Playlist(freshId, name, [], now)]
  }

  /** One playlist's part of `addToPlaylist`. */
  function AddSong(p: Playlist, song: Track): Playlist
  {
    if SomeHasId(p.songs, song.id) then p else p.(songs := p.songs + [song])
  }

  /** `addToPlaylist(playlistId, song)`: every playlist with that id gains the
      song at its end unless it already holds a song with the same id; the
      other playlists and their number do not change. */
  function AddToPlaylist(prev: seq<Playlist>, playlistId: string, song: Track): (r: seq<Playlist>)
    ensures |r| == |prev|
    ensures forall i :: 0 <= i < |prev| && prev[i].id != playlistId ==> r[i] == prev[i]
    ensures forall i :: 0 <= i < |prev| && prev[i].id == playlistId ==>
              && r[i].(songs := prev[i].songs) == prev[i]
              && (SomeHasId(prev[i].songs, song.id) ==> r[i] == prev[i])
              && (!SomeHasId(prev[i].songs, song.id) ==> r[i].songs == prev[i].songs + [song])
  {
    seq(|prev|, i requires 0 <= i < |prev| =>
      if prev[i].id == playlistId then AddSong(prev[i], song) else prev[i])
  }

  /** One playlist's part of `removeFromPlaylist`. */
  function RemoveSong(p: Playlist, songId: string): (r: Playlist)
    ensures forall t :: multiset(r.songs)[t] == if t.id != songId then multiset(p.songs)[t] else 0
  {
    FilterMultiset(p.songs, (s: Track) => s.id != songId);
    p.(songs := Filter(p.songs, (s: Track) => s.id != songId))
  }

  /** `removeFromPlaylist(playlistId, songId)`: in every playlist with that id
      no song with `songId` remains and the other songs stay, in order; the
      other playlists and their number do not change. */
  function RemoveFromPlaylist(prev: seq<Playlist>, playlistId: string, songId: string): (r: seq<Playlist>)
    ensures |r| == |prev|
    ensures forall i :: 0 <= i < |prev| && prev[i].id != playlistId ==> r[i] == prev[i]
    ensures forall i :: 0 <= i < |prev| && prev[i].id == playlistId ==>
              && r[i].(songs := prev[i].songs) == prev[i]
              && !SomeHasId(r[i].songs, songId)
              && IsSubsequence(r[i].songs, prev[i].songs)
              && (forall k :: 0 <= k < |prev[i].songs| && prev[i].songs[k].id != songId ==>
                    prev[i].songs[k] in r[i].songs)
              && (forall t :: multiset(r[i].songs)[t] ==
                    if t.id != songId then multiset(prev[i].songs)[t] else 0)
  {
    seq(|prev|, i requires 0 <= i < |prev| =>
      if prev[i].id == playlistId then RemoveSong(prev[i], songId) else prev[i])
  }

  /** `deletePlaylist(playlistId)`: no playlist with the id remains; all
      others stay, in order. */
  function DeletePlaylist(prev: seq<Playlist>, playlistId: string): (r: seq<Playlist>)
    ensures forall k :: 0 <= k < |r| ==> r[k].id != playlistId
    ensures IsSubsequence(r, prev)
    ensures forall k :: 0 <= k < |prev| && prev[k].id != playlistId ==> prev[k] in r
    ensures forall p :: multiset(r)[p] == if p.id != playlistId then multiset(prev)[p] else 0
  {
    FilterMultiset(prev, (p: Playlist) => p.id != playlistId);
    Filter(prev, (p: Playlist) => p.id != playlistId)
  }

  /** Position `k` holds the first playlist with the id. */
  predicate IsFirstWithId(playlists: seq<Playlist>, k: int, playlistId: string)
  {
    && 0 <= k < |playlists|
    && playlists[k].id == playlistId
    && forall j :: 0 <= j < k ==> playlists[j].id != playlistId
  }

  /** `getPlaylist(playlistId)`: the first playlist with the id, or `undefined` (`None`). */
  function GetPlaylist(playlists: seq<Playlist>, playlistId: string): (r: Option<Playlist>)
    ensures r.None? <==> forall k :: 0 <= k < |playlists| ==> playlists[k].id != playlistId
    ensures r.Some? ==> exists k :: IsFirstWithId(playlists, k, playlistId) && playlists[k] == r.value
  {
    if playlists == [] then None
    else if playlists[0].id == playlistId then
      assert IsFirstWithId(playlists, 0, playlistId);
      Some(playlists[0])
    else
      var r := GetPlaylist(playlists[1..], playlistId);
      assert r.Some? ==> exists k :: IsFirstWithId(playlists, k, playlistId) && playlists[k] == r.value by {
        if r.Some? {
          var k :| IsFirstWithId(playlists[1..], k, playlistId) && playlists[1..][k] == r.value;
          assert IsFirstWithId(playlists, k + 1, playlistId);
        }
      }
      r
  }

  /** Adding a song twice is adding it once. */
  lemma AddToPlaylistIdempotent(prev: seq<Playlist>, playlistId: string, song: Track)
    ensures AddToPlaylist(AddToPlaylist(prev, playlistId, song), playlistId, song)
            == AddToPlaylist(prev, playlistId, song)
  {
    var once := AddToPlaylist(prev, playlistId, song);
    forall i | 0 <= i < |prev| && prev[i].id == playlistId
      ensures SomeHasId(once[i].songs, song.id)
    {
      if !SomeHasId(prev[i].songs, song.id) {
        assert once[i].songs[|prev[i].songs|] == song;
      }
    }
  }

  /** Removing a song just added to playlists that did not hold its id gives
      the playlists back unchanged. */
  lemma RemoveUndoesAdd(prev: seq<Playlist>, playlistId: string, song: Track)
    requires forall i :: 0 <= i < |prev| && prev[i].id == playlistId ==> !SomeHasId(prev[i].songs, song.id)
    ensures RemoveFromPlaylist(AddToPlaylist(prev, playlistId, song), playlistId, song.id) == prev
  {
    var added := AddToPlaylist(prev, playlistId, song);
    var r := RemoveFromPlaylist(added, playlistId, song.id);
    forall i | 0 <= i < |prev| ensures r[i] == prev[i] {
      if prev[i].id == playlistId {
        var keep := (s: Track) => s.id != song.id;
        var songs := prev[i].songs;
        FilterAppend(songs, [song], keep);
        forall k | 0 <= k < |songs| ensures keep(songs[k]) {
          assert !SomeHasId(songs, song.id);
        }
        FilterKeepsAll(songs, keep);
        assert Filter([song], keep) == [] by {
          assert [song][..0] == [];
        }
        assert r[i] == RemoveSong(added[i], song.id);
      }
    }
  }

  /** A freshly created playlist is what `getPlaylist` finds under its new id. */
  lemma GetCreatedPlaylist(prev: seq<Playlist>, name: string, freshId: string, now: int)
    requires forall k :: 0 <= k < |prev| ==> prev[k].id != freshId
    ensures GetPlaylist(CreatePlaylist(prev, name, freshId, now), freshId) == Some(Playlist(freshId, name, [], now))
  {
    var r := CreatePlaylist(prev, name, freshId, now);
    var found := GetPlaylist(r, freshId);
    var k :| IsFirstWithId(r, k, freshId) && r[k] == found.value;
    assert k == |prev|;
  }

  /** After `deletePlaylist`, `getPlaylist` finds nothing under that id. */
  lemma GetDeletedPlaylist(prev: seq<Playlist>, playlistId: string)
    ensures GetPlaylist(DeletePlaylist(prev, playlistId), playlistId) == None
  {
  }

  /** `handleCreatePlaylist` of the library panel, over its input box text:
      a name that trims to nothing creates nothing and leaves the box as it
      is; otherwise a playlist named by the trimmed text is created and the
      box is cleared. */
  function HandleCreatePlaylist(prev: seq<Playlist>, input: string, freshId: string, now: int): (r: (seq<Playlist>, string))
    ensures Trim(input) == "" ==> r == (prev, input)
    ensures Trim(input) != "" ==>
              && |r.0| == |prev| + 1 && r.0[..|prev|] == prev && r.1 == ""
              && r.0[|prev|] == Playlist(freshId, Trim(input), [], now)
  {
    if Trim(input) != "" then (CreatePlaylist(prev, Trim(input), freshId, now), "") else (prev, input)
  }

  /** The panel creates a playlist exactly when its input holds something other
      than whitespace, and the new name then has no whitespace at either end. */
  lemma CreatesOnlyNonBlankNames(prev: seq<Playlist>, input: string, freshId: string, now: int)
    ensures var (r, box) := HandleCreatePlaylist(prev, input, freshId, now);
            && (r == prev <==> forall i :: 0 <= i < |input| ==> IsJsSpace(input[i]))
            && (r == prev ==> box == input)
            && (r != prev ==>
                  && |r| == |prev| + 1 && box == ""
                  && r[|prev|].name == Trim(input)
                  && r[|prev|].name != ""
                  && !IsJsSpace(r[|prev|].name[0])
                  && !IsJsSpace(r[|prev|].name[|r[|prev|].name| - 1]))
  {
    TrimSpec(input);
    var (r, box) := HandleCreatePlaylist(prev, input, freshId, now);
    if Trim(input) != "" {
      assert |r| != |prev|;
    }
  }
}
