/** The simple transport: a provider holding the current track, the play
    flag, progress, duration and volume, driving one audio element. It has
    no queue. */
module Transport {
  import opened Maybe
  import opened Tracks
  import opened Media

  /** `downloadUrl[4]?.link || downloadUrl[0]?.link`: the fifth link when it
      exists and is non-empty, else the first link, else `undefined` (`None`). */
  function MediaUrl(downloads: seq<Link>): (r: Option<string>)
    ensures |downloads| > 4 && downloads[4].link != "" ==> r == Some(downloads[4].link)
    ensures (|downloads| <= 4 || downloads[4].link == "") && |downloads| > 0 ==> r == Some(downloads[0].link)
    ensures downloads == [] <==> r.None?
  {
    if |downloads| > 4 && downloads[4].link != "" then Some(downloads[4].link)
    else if |downloads| > 0 then Some(downloads[0].link)
    else None
  }

  /** The text an element's `src` receives: an absent link becomes the string "undefined". */
  function SourceText(url: Option<string>): string
  {
    match url
    case Some(s) => s
    case None => "undefined"
  }

  /** The largest volume the provider's slider and element assignment accept. */
  const MaxVolume: real := 100.0

  class AudioProvider {
    var currentTrack: Option<Track>
    var isPlaying: bool
    var progress: real
    var duration: real
    var volume: real
    var audio: Option<MediaElement>

    /** A fresh provider: no track, not playing, progress and duration 0, volume 100. */
    constructor (element: Option<MediaElement>)
      ensures currentTrack == None && !isPlaying && progress == 0.0 && duration == 0.0
      ensures volume == MaxVolume && audio == element
    {
      currentTrack, isPlaying, progress, duration := None, false, 0.0, 0.0;
      volume, audio := MaxVolume, element;
    }

    /** `pauseTrack`: play flag off and the element paused. */
    method PauseTrack()
      modifies this
      ensures !isPlaying
      ensures audio == if old(audio).Some? then Some(Pause(old(audio).value)) else None
      ensures currentTrack == old(currentTrack) && progress == old(progress)
      ensures duration == old(duration) && volume == old(volume)
    {
      isPlaying := false;
      if audio.Some? {
        audio := Some(Pause(audio.value));
      }
    }

    /** `togglePlay`: negates the play flag, with or without a track, and sends
        the element the matching command. */
    method TogglePlay(accepted: bool)
      modifies this
      ensures isPlaying == !old(isPlaying)
      ensures old(audio).None? ==> audio == None
      ensures old(audio).Some? ==>
                audio == Some(if old(isPlaying) then Pause(old(audio).value)
                              else Play(old(audio).value, accepted))
      ensures currentTrack == old(currentTrack) && progress == old(progress)
      ensures duration == old(duration) && volume == old(volume)
    {
      if isPlaying {
        PauseTrack();
      } else {
        isPlaying := true;
        if audio.Some? {
          audio := Some(Play(audio.value, accepted));
        }
      }
    }

    /** `playTrack(track)`: choosing the current track again toggles playback
        and keeps the element's source; any other track becomes current, play
        is switched on, and the element loads the track's media link and plays. */
    method PlayTrack(track: Track, accepted: bool)
      modifies this
      ensures old(currentTrack).Some? && old(currentTrack).value.id == track.id ==>
                && currentTrack == old(currentTrack) && isPlaying == !old(isPlaying)
                && audio == (if old(audio).None? then None
                             else Some(if old(isPlaying) then Pause(old(audio).value)
                                       else Play(old(audio).value, accepted)))
                && (old(audio).Some? ==> audio.Some? && audio.value.src == old(audio).value.src)
      ensures !(old(currentTrack).Some? && old(currentTrack).value.id == track.id) ==>
                && currentTrack == Some(track) && isPlaying
                && audio == if old(audio).None? then None
                            else Some(Play(Load(old(audio).value, SourceText(MediaUrl(track.downloadUrl))), accepted))
      ensures progress == old(progress) && duration == old(duration) && volume == old(volume)
    {
      if currentTrack.Some? && currentTrack.value.id == track.id {
        TogglePlay(accepted);
        return;
      }
      currentTrack := Some(track);
      isPlaying := true;
      if audio.Some? {
        audio := Some(Play(Load(audio.value, SourceText(MediaUrl(track.downloadUrl))), accepted));
      }
    }

    /** `setProgress(value)`: with an element, moves it and the progress to
        `value` as given (no clamping); without one, nothing changes. */
    method SetProgress(value: real)
      modifies this
      ensures old(audio).Some? ==>
                audio == Some(old(audio).value.(currentTime := value)) && progress == value
      ensures old(audio).None? ==> audio == None && progress == old(progress)
      ensures currentTrack == old(currentTrack) && isPlaying == old(isPlaying)
      ensures duration == old(duration) && volume == old(volume)
    {
      if audio.Some? {
        audio := Some(audio.value.(currentTime := value));
        progress := value;
      }
    }

    /** The element's `timeupdate` event: progress and duration copy the element's. */
    method HandleTimeUpdate()
      modifies this
      ensures old(audio).Some? ==>
                progress == old(audio).value.currentTime && duration == old(audio).value.duration
      ensures old(audio).None? ==> progress == old(progress) && duration == old(duration)
      ensures audio == old(audio) && currentTrack == old(currentTrack)
      ensures isPlaying == old(isPlaying) && volume == old(volume)
    {
      if audio.Some? {
        progress := audio.value.currentTime;
        duration := audio.value.duration;
      }
    }

    /** The element's `ended` event, as handled by both of its listeners:
        play flag off and progress back to 0; the track stays current. */
    method HandleEnded()
      modifies this
      ensures !isPlaying && progress == 0.0
      ensures currentTrack == old(currentTrack) && audio == old(audio)
      ensures duration == old(duration) && volume == old(volume)
    {
      isPlaying := false;
      progress := 0.0;
    }

    /** The element's `error` event: play flag off, nothing else. */
    method HandleError()
      modifies this
      ensures !isPlaying
      ensures currentTrack == old(currentTrack) && audio == old(audio) && progress == old(progress)
      ensures duration == old(duration) && volume == old(volume)
    {
      isPlaying := false;
    }

    /** `setVolume(value)` followed by the effect that copies the volume to the
        element as `value / 100`. The element refuses a value outside [0, 1]
        and the effect does not catch that error: `failed` reports it. */
    method SetVolume(value: real) returns (failed: bool)
      modifies this
      ensures volume == value
      ensures failed <==> old(audio).Some? && !(0.0 <= value <= MaxVolume)
      ensures audio == if old(audio).Some? && !failed
                       then Some(old(audio).value.(volume := value / MaxVolume)) else old(audio)
      ensures currentTrack == old(currentTrack) && isPlaying == old(isPlaying)
      ensures progress == old(progress) && duration == old(duration)
    {
      volume := value;
      failed := false;
      if audio.Some? {
        if 0.0 <= value <= MaxVolume {
          audio := Some(audio.value.(volume := value / MaxVolume));
        } else {
          failed := true;
        }
      }
    }
  }

  /** Choosing the playing track twice pauses it on the second choice instead of restarting it. */
  method ReselectToggles(track: Track, element: MediaElement)
  {
    var provider := new AudioProvider(Some(element));
    provider.PlayTrack(track, true);
    assert provider.isPlaying && provider.audio.value.currentTime == 0.0;
    provider.SetProgress(42.0);
    provider.PlayTrack(track, true);
    assert !provider.isPlaying && provider.progress == 42.0 && provider.currentTrack == Some(track);
  }

  /** Pausing twice leaves the same state as pausing once, and two toggles
      give back the play flag they started from. */
  method PauseTwiceToggleTwice(track: Track, element: MediaElement)
  {
    var provider := new AudioProvider(Some(element));
    provider.PlayTrack(track, true);
    provider.PauseTrack();
    var paused := provider.audio;
    provider.PauseTrack();
    assert provider.audio == paused && !provider.isPlaying;
    provider.TogglePlay(true);
    provider.TogglePlay(false);
    assert !provider.isPlaying && provider.currentTrack == Some(track);
  }
}
