/** The queue navigation engine of the player hook: a queue (held as an
    album), a cursor into it, the play flag and the audio element, with the
    handlers that move the cursor, install a queue and toggle playback. */
module QueuePlayer {
  import opened Maybe
  import opened Seqs
  import opened Tracks
  import opened Media

  /** `Array.from({ length: n }, (_, i) => i)`. */
  function Indices(n: nat): seq<int>
  {
    seq(n, i => i)
  }

  /** The indices a shuffled step chooses among: those of an `n`-song queue
      other than the cursor, in ascending order. */
  function AvailableIndices(n: nat, cursor: int): seq<int>
  {
    Filter(Indices(n), i => i != cursor)
  }

  /** The available indices are the queue's indices with the cursor taken out:
      position `k` holds `k`, or `k + 1` once the cursor has been passed. */
  lemma {:induction false} AvailableIndicesShape(n: nat, cursor: int)
    ensures |AvailableIndices(n, cursor)| == if 0 <= cursor < n then n - 1 else n
    ensures forall k :: 0 <= k < |AvailableIndices(n, cursor)| ==>
              AvailableIndices(n, cursor)[k] == if 0 <= cursor <= k then k + 1 else k
  {
    if n > 0 {
      AvailableIndicesShape(n - 1, cursor);
      assert Indices(n)[..n - 1] == Indices(n - 1);
    }
  }

  /** `Math.floor(random * m)`, where `random` is a draw of `Math.random()`. */
  function ScaledDraw(random: real, m: nat): (k: nat)
    requires 0.0 <= random < 1.0 && m > 0
    ensures k < m
  {
    assert random * (m as real) < m as real by {
      assert (1.0 - random) * (m as real) > 0.0;
    }
    (random * (m as real)).Floor
  }

  /** `getNextIndex`: the queue position that follows the cursor, or -1.
      With shuffle on it is a random position other than the cursor;
      otherwise the next position, wrapping to 0 only under repeat-all. */
  function NextIndex(album: Option<Album>, cursor: int, repeat: RepeatMode, shuffle: bool, random: real): (r: int)
    requires 0.0 <= random < 1.0
    ensures album.None? ==> r == -1
    ensures album.Some? && shuffle ==>
              (r == -1 <==> |album.value.songs| == 0 || (|album.value.songs| == 1 && cursor == 0))
    ensures album.Some? && shuffle && r != -1 ==> 0 <= r < |album.value.songs| && r != cursor
    ensures album.Some? && !shuffle && 0 <= cursor < |album.value.songs| - 1 ==> r == cursor + 1
    ensures album.Some? && !shuffle && cursor == |album.value.songs| - 1 ==>
              r == if repeat == All then 0 else -1
    ensures album.Some? && 0 <= cursor < |album.value.songs| && r != -1 ==> 0 <= r < |album.value.songs|
  {
    match album
    case None => -1
    case Some(a) =>
      var n := |a.songs|;
      if shuffle then
        var available := AvailableIndices(n, cursor);
        AvailableIndicesShape(n, cursor);
        if |available| == 0 then -1 else available[ScaledDraw(random, |available|)]
      else if cursor + 1 >= n then
        if repeat == All then 0 else -1
      else
        cursor + 1
  }

  /** Shuffle can land on every position other than the cursor: for each one
      there is a draw of the random source that selects it. */
  lemma ShuffleCanChooseAnyOther(album: Album, cursor: int, repeat: RepeatMode, j: int)
    requires 0 <= j < |album.songs| && j != cursor
    ensures exists random :: 0.0 <= random < 1.0 && NextIndex(Some(album), cursor, repeat, true, random) == j
  {
    var n := |album.songs|;
    AvailableIndicesShape(n, cursor);
    var available := AvailableIndices(n, cursor);
    var m := |available|;
    var k := if 0 <= cursor < j then j - 1 else j;
    assert available[k] == j;
    var random := (k as real) / (m as real);
    DrawSelecting(k, m);
    ShuffleTakesDrawn(album, cursor, repeat, random, k);
  }

  /** A shuffled step takes the available index at the drawn position. */
  lemma ShuffleTakesDrawn(album: Album, cursor: int, repeat: RepeatMode, random: real, k: nat)
    requires 0.0 <= random < 1.0 && k < |AvailableIndices(|album.songs|, cursor)|
    requires ScaledDraw(random, |AvailableIndices(|album.songs|, cursor)|) == k
    ensures NextIndex(Some(album), cursor, repeat, true, random) == AvailableIndices(|album.songs|, cursor)[k]
  {
  }

  /** The draw `k / m` selects position `k` of `m`. */
  lemma DrawSelecting(k: nat, m: nat)
    requires k < m
    ensures 0.0 <= (k as real) / (m as real) < 1.0
    ensures ScaledDraw((k as real) / (m as real), m) == k
  {
    var random := (k as real) / (m as real);
    assert random * (m as real) == k as real;
  }

  /** With the cursor on the queue, `getNextIndex` finds no position under
      repeat-all only for a one-song queue with shuffle on. */
  lemma NoNextUnderRepeatAll(album: Album, cursor: int, shuffle: bool, random: real)
    requires 0.0 <= random < 1.0 && 0 <= cursor < |album.songs|
    requires NextIndex(Some(album), cursor, All, shuffle, random) == -1
    ensures shuffle && |album.songs| == 1
  {
  }

  class QueuePlayer {
    var currentAlbum: Option<Album>
    var currentIndex: int
    var currentTrack: Option<Track>
    var isPlaying: bool
    var repeatMode: RepeatMode
    var isShuffle: bool
    var audio: Option<MediaElement>

    /** While a queue is loaded and the cursor is not -1, the cursor is a position of the queue. */
    ghost predicate Valid()
      reads this
    {
      currentAlbum.Some? && currentIndex != -1 ==> 0 <= currentIndex < |currentAlbum.value.songs|
    }

    /** The current track is the queue entry under the cursor. */
    ghost predicate OnCursor()
      reads this
    {
      && currentAlbum.Some?
      && 0 <= currentIndex < |currentAlbum.value.songs|
      && currentTrack == Some(currentAlbum.value.songs[currentIndex])
    }

    /** The hook reads its state from the provider that owns it; the provider passes it in. */
    constructor (album: Option<Album>, index: int, track: Option<Track>, playing: bool,
                 repeat: RepeatMode, shuffle: bool, element: Option<MediaElement>)
      requires album.Some? && index != -1 ==> 0 <= index < |album.value.songs|
      ensures Valid()
      ensures currentAlbum == album && currentIndex == index && currentTrack == track
      ensures isPlaying == playing && repeatMode == repeat && isShuffle == shuffle && audio == element
    {
      currentAlbum, currentIndex, currentTrack, isPlaying := album, index, track, playing;
      repeatMode, isShuffle, audio := repeat, shuffle, element;
    }

    /** `togglePlay`: without an element nothing happens; otherwise a paused
        element is asked to play and a playing one is paused, and the play flag
        then copies what the element reports. */
    method TogglePlay(accepted: bool)
      modifies this
      ensures old(audio).None? ==> audio == old(audio) && isPlaying == old(isPlaying)
      ensures old(audio).Some? ==>
                audio == Some(if old(audio).value.paused then Play(old(audio).value, accepted)
                              else Pause(old(audio).value))
      ensures old(audio).Some? ==> isPlaying == !audio.value.paused
      ensures old(audio).Some? && !old(audio).value.paused ==> !isPlaying
      ensures old(audio).Some? && old(audio).value.paused ==> isPlaying == accepted
      ensures currentAlbum == old(currentAlbum) && currentIndex == old(currentIndex)
      ensures currentTrack == old(currentTrack)
      ensures repeatMode == old(repeatMode) && isShuffle == old(isShuffle)
    {
      if audio.None? {
        return;
      }
      var element := audio.value;
      if element.paused {
        element := Play(element, accepted);
      } else {
        element := Pause(element);
      }
      audio := Some(element);
      isPlaying := !element.paused;
    }

    /** `playQueue`: an empty list changes nothing; otherwise the list becomes
        the queue verbatim, the cursor and current track go to its first entry
        and the play flag is set (the element itself is not touched). */
    method PlayQueue(tracks: seq<Track>)
      requires Valid()
      modifies this
      ensures Valid()
      ensures tracks == [] ==>
                currentAlbum == old(currentAlbum) && currentIndex == old(currentIndex)
                && currentTrack == old(currentTrack) && isPlaying == old(isPlaying)
      ensures tracks != [] ==>
                currentAlbum == Some(Album("queue", "Queue", tracks, tracks[0].image))
                && currentIndex == 0 && currentTrack == Some(tracks[0]) && isPlaying
      ensures tracks != [] ==> OnCursor()
      ensures audio == old(audio) && repeatMode == old(repeatMode) && isShuffle == old(isShuffle)
    {
      if |tracks| == 0 {
        return;
      }
      currentAlbum := Some(Album("queue", "Queue", tracks, tracks[0].image));
      currentIndex := 0;
      currentTrack := Some(tracks[0]);
      isPlaying := true;
    }

    /** `nextTrack`, with `random` the draw of `Math.random()` a shuffled step uses.
        Without a queue or with cursor -1 nothing happens. A position from
        `getNextIndex` becomes the cursor, its song the current track, and play
        is switched on. With no such position, repeat-all restarts the queue
        from position 0 (reachable only for a one-song shuffled queue);
        otherwise nothing changes, and in particular playing is not stopped. */
    method NextTrack(random: real)
      requires Valid() && 0.0 <= random < 1.0
      modifies this
      ensures Valid()
      ensures currentAlbum == old(currentAlbum) && audio == old(audio)
      ensures repeatMode == old(repeatMode) && isShuffle == old(isShuffle)
      ensures old(currentAlbum).None? || old(currentIndex) == -1 ==>
                currentIndex == old(currentIndex) && currentTrack == old(currentTrack)
                && isPlaying == old(isPlaying)
      ensures old(currentAlbum).Some? && old(currentIndex) != -1 ==>
                var songs := old(currentAlbum).value.songs;
                var next := NextIndex(old(currentAlbum), old(currentIndex), repeatMode, isShuffle, random);
                if next != -1 then
                  currentIndex == next && currentTrack == Some(songs[next]) && isPlaying
                else if repeatMode == All then
                  isShuffle && |songs| == 1
                  && currentIndex == 0 && currentTrack == Some(songs[0]) && isPlaying
                else
                  currentIndex == old(currentIndex) && currentTrack == old(currentTrack)
                  && isPlaying == old(isPlaying)
      ensures old(OnCursor()) ==> OnCursor()
    {
      if currentAlbum.None? || currentIndex == -1 {
        return;
      }
      var songs := currentAlbum.value.songs;
      var next := NextIndex(currentAlbum, currentIndex, repeatMode, isShuffle, random);
      if next != -1 {
        currentIndex := next;
        currentTrack := Some(songs[next]);
        isPlaying := true;
      } else if repeatMode == All {
        NoNextUnderRepeatAll(currentAlbum.value, currentIndex, isShuffle, random);
        currentIndex := 0;
        currentTrack := Some(songs[0]);
        isPlaying := true;
      }
    }

    /** `previousTrack`: steps the cursor back one position and switches play on;
        at position 0, without a queue or with cursor -1 nothing changes
        (it never wraps to the end). */
    method PreviousTrack()
      requires Valid()
      modifies this
      ensures Valid()
      ensures currentAlbum == old(currentAlbum) && audio == old(audio)
      ensures repeatMode == old(repeatMode) && isShuffle == old(isShuffle)
      ensures old(currentAlbum).Some? && old(currentIndex) > 0 ==>
                currentIndex == old(currentIndex) - 1
                && currentTrack == Some(old(currentAlbum).value.songs[old(currentIndex) - 1])
                && isPlaying && OnCursor()
      ensures old(currentAlbum).None? || old(currentIndex) <= 0 ==>
                currentIndex == old(currentIndex) && currentTrack == old(currentTrack)
                && isPlaying == old(isPlaying)
    {
      if currentAlbum.None? || currentIndex == -1 {
        return;
      }
      var previous := currentIndex - 1;
      if previous >= 0 {
        currentIndex := previous;
        currentTrack := Some(currentAlbum.value.songs[previous]);
        isPlaying := true;
      }
    }
  }

  /** Three songs, no shuffle, no repeat: two steps forward reach the last
      song; a third step changes nothing and leaves playback on; stepping back
      from the first song changes nothing either. */
  method ThreeSongQueue(s1: Track, s2: Track, s3: Track, element: Option<MediaElement>)
  {
    var player := new QueuePlayer(None, -1, None, false, Off, false, element);
    player.PlayQueue([s1, s2, s3]);
    player.PreviousTrack();
    assert player.currentIndex == 0 && player.currentTrack == Some(s1);
    player.NextTrack(0.0);
    assert player.currentIndex == 1 && player.currentTrack == Some(s2) && player.isPlaying;
    player.NextTrack(0.0);
    assert player.currentIndex == 2 && player.currentTrack == Some(s3);
    player.NextTrack(0.0);
    assert player.currentIndex == 2 && player.currentTrack == Some(s3) && player.isPlaying;
  }
}
