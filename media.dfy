/** The platform audio element, reduced to the fields the handlers read and
    write. Its own playback, decoding and events belong to the platform. */
module Media {

  datatype MediaElement = MediaElement(
    paused: bool,
    src: string,
    currentTime: real,
    duration: real,
    volume: real)

  /** `e.play()`: the element leaves the paused state at once unless the
      platform refuses to start (`accepted` is false, as under an autoplay
      policy), in which case the returned promise rejects and nothing changes. */
  function Play(e: MediaElement, accepted: bool): MediaElement
  {
    if accepted then e.(paused := false) else e
  }

  /** Assigning `e.src`: the platform's load algorithm pauses the element and
      rewinds it to position 0 before the new source plays. */
  function Load(e: MediaElement, url: string): MediaElement
  {
    e.(src := url, paused := true, currentTime := 0.0)
  }

  /** `e.pause()`. */
  function Pause(e: MediaElement): MediaElement
  {
    e.(paused := true)
  }
}
