/** `searchTrackOnSaavn`: looking a track up on JioSaavn by title and artist.
    The query is sanitised, the first result is taken and its best image is
    chosen; every failure ends in `null` (`None`). The HTTP exchange is a
    parameter: the reply the server gives to the sanitised query. */
module Saavn {
  import opened Maybe
  import opened Seqs
  import opened Text
  import opened Tracks

  /** The characters `/[^\w\s]/gi` leaves in place. */
  predicate Kept(c: char)
  {
    IsWordChar(c) || IsJsSpace(c)
  }

  /** `text.replace(/[^\w\s]/gi, '')`: every character outside `\w` and `\s` removed. */
  function Sanitize(text: string): (r: string)
    ensures |r| <= |text| && IsSubsequence(r, text)
    ensures forall k :: 0 <= k < |r| ==> Kept(r[k])
    ensures forall k :: 0 <= k < |text| && Kept(text[k]) ==> text[k] in r
    ensures forall c :: multiset(r)[c] == if Kept(c) then multiset(text)[c] else 0
  {
    FilterMultiset(text, Kept);
    Filter(text, Kept)
  }

  /** The query sent for a title and an artist. */
  function Query(title: string, artist: string): (r: string)
    ensures r == Sanitize(title) + " " + Sanitize(artist)
  {
    QueryJoinsParts(title, artist);
    Sanitize(title + " " + artist)
  }

  /** Sanitising twice gives the same query as sanitising once. */
  lemma SanitizeIdempotent(text: string)
    ensures Sanitize(Sanitize(text)) == Sanitize(text)
  {
    FilterIdempotent(text, Kept);
  }

  /** The space between title and artist survives, so the query is the
      sanitised title, a space and the sanitised artist. */
  lemma QueryJoinsParts(title: string, artist: string)
    ensures Sanitize(title + " " + artist) == Sanitize(title) + " " + Sanitize(artist)
  {
    assert Filter(" ", Kept) == " " by {
      assert Kept(' ');
      assert " " == [] + [' '];
      FilterSnoc([], ' ', Kept);
    }
    FilterAppend(title, " ", Kept);
    FilterAppend(title + " ", artist, Kept);
  }

  /** The `images` object of a result, as its entries in key order. */
  datatype ImageEntry = ImageEntry(key: string, url: string)

  /** One search result. A missing `images` object is `None`. */
  datatype SaavnTrack = SaavnTrack(
    id: string,
    name: string,
    primaryArtists: string,
    downloadUrl: string,
    images: Option<seq<ImageEntry>>)

  /** The `results` field of the body, when the body is an object. */
  datatype Results = ResultsArray(tracks: seq<SaavnTrack>) | NotAnArray

  /** The parsed body: `null` or another falsy value, or an object with its `results`. */
  datatype Body = Falsy | Object(results: Results)

  /** What the request yields: a non-2xx status, a thrown error, or a body. */
  datatype SaavnReply = HttpError(status: int, statusText: string) | Failure | Received(body: Body)

  /** A returned image link, `undefined` being `None`. */
  datatype ImageLink = ImageLink(link: Option<string>)

  datatype SaavnResult = SaavnResult(
    id: string,
    name: string,
    primaryArtists: string,
    downloadUrl: seq<Link>,
    image: seq<ImageLink>)

  /** `imageUrls[key]`: the url stored under `key`, if any. */
  function Lookup(entries: seq<ImageEntry>, key: string): (r: Option<string>)
    ensures r.Some? <==> exists k :: 0 <= k < |entries| && entries[k].key == key
    ensures r.Some? ==> exists k :: && 0 <= k < |entries| && entries[k].key == key && entries[k].url == r.value
                                    && forall j :: 0 <= j < k ==> entries[j].key != key
  {
    if entries == [] then None
    else if entries[0].key == key then Some(entries[0].url)
    else
      var r := Lookup(entries[1..], key);
      assert forall k :: 0 <= k < |entries| - 1 ==> entries[1..][k] == entries[k + 1];
      assert r.Some? ==> exists k :: && 0 <= k < |entries| && entries[k].key == key && entries[k].url == r.value
                                     && forall j :: 0 <= j < k ==> entries[j].key != key by {
        if r.Some? {
          var k :| && 0 <= k < |entries| - 1 && entries[1..][k].key == key && entries[1..][k].url == r.value
                   && forall j :: 0 <= j < k ==> entries[1..][j].key != key;
          assert entries[k + 1].key == key && entries[k + 1].url == r.value;
          assert forall j :: 0 <= j < k + 1 ==> entries[j].key != key by {
            forall j | 0 <= j < k + 1 ensures entries[j].key != key {
              if j > 0 { assert entries[j] == entries[1..][j - 1]; }
            }
          }
        }
      }
      r
  }

  /** `imageUrls['500x500'] || imageUrls['150x150'] || Object.values(imageUrls)[0]`. */
  function BestImage(entries: seq<ImageEntry>): (r: Option<string>)
    ensures Truthy(Lookup(entries, "500x500")) ==> r == Lookup(entries, "500x500")
    ensures (!Truthy(Lookup(entries, "500x500")) && Truthy(Lookup(entries, "150x150")))
            ==> r == Lookup(entries, "150x150")
    ensures (!Truthy(Lookup(entries, "500x500")) && !Truthy(Lookup(entries, "150x150")))
            ==> r == (if entries == [] then None else Some(entries[0].url))
    ensures r.None? <==> entries == []
    ensures r.Some? ==> exists k :: 0 <= k < |entries| && entries[k].url == r.value
  {
    var large := Lookup(entries, "500x500");
    var small := Lookup(entries, "150x150");
    if Truthy(large) then large
    else if Truthy(small) then small
    else if entries == [] then None
    else Some(entries[0].url)
  }

  /** The record the first result becomes. */
  function Describe(track: SaavnTrack): (r: SaavnResult)
    ensures r.id == track.id && r.name == track.name && r.primaryArtists == track.primaryArtists
    ensures |r.downloadUrl| == 1 && r.downloadUrl[0].link == track.downloadUrl
    ensures |r.image| == 1
    ensures track.images.None? ==> r.image[0].link.None?
    ensures track.images.Some? ==> r.image[0].link == BestImage(track.images.value)
  {
    var entries := if track.images.Some? then track.images.value else [];
    SaavnResult(track.id, track.name, track.primaryArtists, [Link(track.downloadUrl)],
                [ImageLink(BestImage(entries))])
  }

  /** `searchTrackOnSaavn(title, artist)`: the first result of the search for
      the sanitised query, or `None` after a failure or an empty result list. */
  function SearchTrackOnSaavn(title: string, artist: string, reply: string -> SaavnReply): (r: Option<SaavnResult>)
    ensures r.Some? <==>
              && reply(Query(title, artist)).Received?
              && reply(Query(title, artist)).body.Object?
              && reply(Query(title, artist)).body.results.ResultsArray?
              && reply(Query(title, artist)).body.results.tracks != []
    ensures r.Some? ==> r.value == Describe(reply(Query(title, artist)).body.results.tracks[0])
  {
    match reply(Query(title, artist))
    case Received(Object(ResultsArray(tracks))) =>
      if tracks == [] then None else Some(Describe(tracks[0]))
    case _ => None
  }
}
