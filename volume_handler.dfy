/** The volume handler of the queue player: it changes the volume without
    letting the change stop a playing element. */
module VolumeHandler {
  import opened Maybe
  import opened Media

  /** The platform accepts an element volume in [0, 1]; assigning any other
      value throws an IndexSizeError. */
  predicate AssignableVolume(v: real)
  {
    0.0 <= v <= 1.0
  }

  /** The state `handleVolumeChange` reads and writes: the audio element, the
      `wasPlayingRef` cell and the provider's volume. */
  class VolumeControl {
    var audio: Option<MediaElement>
    var wasPlaying: bool
    var volume: real

    constructor (element: Option<MediaElement>, wasPlayingRef: bool, initialVolume: real)
      ensures audio == element && wasPlaying == wasPlayingRef && volume == initialVolume
    {
      audio, wasPlaying, volume := element, wasPlayingRef, initialVolume;
    }

    /** `handleVolumeChange(newVolume)`. Without an element nothing happens.
        Otherwise the element's playing state before the change is recorded;
        if the element refuses the volume the error is caught and neither
        volume changes; else both volumes become `newVolume`, and an element
        that was playing but is found paused afterwards (`interrupted`: the
        platform paused it during the change) is asked to play again, a refusal
        (`playAccepted` false) being caught too. A paused element is never started. */
    method HandleVolumeChange(newVolume: real, interrupted: bool, playAccepted: bool)
      modifies this
      ensures old(audio).None? ==>
                audio == old(audio) && wasPlaying == old(wasPlaying) && volume == old(volume)
      ensures old(audio).Some? ==> wasPlaying == !old(audio).value.paused
      ensures old(audio).Some? && !AssignableVolume(newVolume) ==>
                audio == old(audio) && volume == old(volume)
      ensures old(audio).Some? && AssignableVolume(newVolume) ==>
                && audio.Some?
                && audio.value == old(audio).value.(volume := newVolume, paused := audio.value.paused)
                && volume == newVolume
                && audio.value.paused == (old(audio).value.paused || (interrupted && !playAccepted))
    {
      if audio.None? {
        return;
      }
      var playing := !audio.value.paused;
      wasPlaying := playing;
      if !AssignableVolume(newVolume) {
        return;
      }
      var element := audio.value.(volume := newVolume);
      if interrupted {
        element := Pause(element);
      }
      audio := Some(element);
      volume := newVolume;
      if playing && element.paused {
        audio := Some(Play(element, playAccepted));
      }
    }
  }
}
