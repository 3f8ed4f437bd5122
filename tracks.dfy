/** The record types shared by the player and the library (`Track`, `Album`,
    `RepeatMode`), and the id queries the code runs over track lists. */
module Tracks {

  datatype Link = Link(link: string)

  /** A playable song. Two tracks with the same `id` are the same song. */
  datatype Track = Track(
    id: string,
    name: string,
    primaryArtists: string,
    downloadUrl: seq<Link>,
    image: seq<Link>)

  /** An album, or the synthetic album that holds the play queue. */
  datatype Album = Album(id: string, name: string, songs: seq<Track>, image: seq<Link>)

  datatype RepeatMode = Off | All | One

  /** `songs.some(s => s.id === id)`, scanning from the front. */
  function SomeHasId(songs: seq<Track>, id: string): (r: bool)
    ensures r <==> exists i :: 0 <= i < |songs| && songs[i].id == id
  {
    songs != [] && (songs[0].id == id || SomeHasId(songs[1..], id))
  }

  /** The ids of a track list, in order. */
  function Ids(songs: seq<Track>): (r: seq<string>)
    ensures |r| == |songs| && forall i :: 0 <= i < |songs| ==> r[i] == songs[i].id
  {
    seq(|songs|, i requires 0 <= i < |songs| => songs[i].id)
  }

  /** No two entries share an id. */
  predicate UniqueIds(songs: seq<Track>)
  {
    forall i, j :: 0 <= i < j < |songs| ==> songs[i].id != songs[j].id
  }
}
