/** `searchSongs`: the guard, the response-shape check and the per-song
    mapping of the local JioSaavn search endpoint. The HTTP exchange is a
    parameter: the reply the server gives to the request. */
module SearchApi {
  import opened Maybe
  import opened Text
  import opened Tracks

  /** A song of the search response, every field optional. */
  datatype RawSong = RawSong(
    id: Option<string>,
    song: Option<string>,
    title: Option<string>,
    singers: Option<string>,
    primaryArtists: Option<string>,
    image: Option<string>,
    mediaUrl: Option<string>)

  /** The parsed body: an array of songs, or any other JSON value. */
  datatype Body = JsonArray(items: seq<RawSong>) | OtherJson

  /** What the request yields: a non-2xx status, a failure with an error
      message (network, or a body that is not JSON), or a parsed body. */
  datatype Reply = HttpError(status: int, statusText: string) | Failure(message: string) | Received(body: Body)

  const DefaultImage: string := "https://i.imgur.com/QxoJ9Co.png"
  const ErrorPrefix: string := "An error occurred while searching: "
  const InvalidFormat: string := "Invalid response format from server"
  const FetchFailed: string := "Failed to fetch search results: "

  /** The record one response song becomes; `randomId` is the text of the
      `Math.random()` draw used when the song has no id. */
  function MapSong(song: RawSong, randomId: string): (r: Track)
    ensures r.id == if Truthy(song.id) then song.id.value else randomId
    ensures Truthy(song.song) ==> r.name == song.song.value
    ensures !Truthy(song.song) && Truthy(song.title) ==> r.name == song.title.value
    ensures !Truthy(song.song) && !Truthy(song.title) ==> r.name == "Unknown Title"
    ensures Truthy(song.singers) ==> r.primaryArtists == song.singers.value
    ensures !Truthy(song.singers) && Truthy(song.primaryArtists) ==> r.primaryArtists == song.primaryArtists.value
    ensures !Truthy(song.singers) && !Truthy(song.primaryArtists) ==> r.primaryArtists == "Unknown Artist"
    ensures |r.image| == 1 && r.image[0].link == if Truthy(song.image) then song.image.value else DefaultImage
    ensures |r.downloadUrl| == 1 && (r.downloadUrl[0].link == "" <==> !Truthy(song.mediaUrl))
    ensures Truthy(song.mediaUrl) ==> r.downloadUrl[0].link == song.mediaUrl.value
  {
    Track(
      OrElse(song.id, randomId),
      OrElse(song.song, OrElse(song.title, "Unknown Title")),
      OrElse(song.singers, OrElse(song.primaryArtists, "Unknown Artist")),
      [Link(OrElse(song.mediaUrl, ""))],
      [Link(OrElse(song.image, DefaultImage))])
  }

  /** `searchSongs(query)`: no request for an empty query; otherwise an error
      for a failed request or a body that is not an array, and the mapped
      songs in response order. `randomId(k)` is the draw for the `k`-th song. */
  function SearchSongs(query: string, reply: string -> Reply, randomId: nat -> string): (r: Result<seq<Track>, string>)
    ensures query == "" ==> r == Ok([])
    ensures query != "" && reply(query) == Received(OtherJson) ==> r == Err(ErrorPrefix + InvalidFormat)
    ensures query != "" && reply(query).HttpError? ==>
              r == Err(ErrorPrefix + FetchFailed + IntDecimal(reply(query).status) + " " + reply(query).statusText)
    ensures query != "" && reply(query).Failure? ==> r == Err(ErrorPrefix + reply(query).message)
    ensures r.Ok? && query != "" ==> reply(query).Received? && reply(query).body.JsonArray?
    ensures r.Ok? && query != "" ==>
              var items := reply(query).body.items;
              && |r.value| == |items|
              && forall k :: 0 <= k < |items| ==> r.value[k] == MapSong(items[k], randomId(k))
  {
    if query == "" then Ok([])
    else
      match reply(query)
      case HttpError(status, statusText) =>
        Err(ErrorPrefix + FetchFailed + IntDecimal(status) + " " + statusText)
      case Failure(message) => Err(ErrorPrefix + message)
      case Received(OtherJson) => Err(ErrorPrefix + InvalidFormat)
      case Received(JsonArray(items)) =>
        Ok(seq(|items|, k requires 0 <= k < |items| => MapSong(items[k], randomId(k))))
  }

  /** Every song found has exactly one image (its own or the default) and
      exactly one download entry, and a name and artists that are never empty. */
  lemma FoundSongsShape(query: string, reply: string -> Reply, randomId: nat -> string, k: nat)
    requires SearchSongs(query, reply, randomId).Ok?
    requires k < |SearchSongs(query, reply, randomId).value|
    ensures var t := SearchSongs(query, reply, randomId).value[k];
            && |t.image| == 1 && t.image[0].link != ""
            && |t.downloadUrl| == 1
            && t.name != "" && t.primaryArtists != ""
  {
  }

  /** A non-empty query succeeds exactly when the server answers with an array. */
  lemma SucceedsOnlyOnArrays(query: string, reply: string -> Reply, randomId: nat -> string)
    requires query != ""
    ensures SearchSongs(query, reply, randomId).Ok? <==> reply(query).Received? && reply(query).body.JsonArray?
  {
  }
}
