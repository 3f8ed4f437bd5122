/** The player bar: the `m:ss` clock text of `formatTime` and what the bar
    shows for the transport's state, including showing nothing without a track. */
module PlayerView {
  import opened Maybe
  import opened Text
  import opened Tracks

  /** `Math.trunc`: rounding toward zero. */
  function Trunc(x: real): (r: int)
    ensures x >= 0.0 ==> r == x.Floor
    ensures x < 0.0 ==> -r == (-x).Floor
    ensures (if x >= 0.0 then x else -x) - 1.0 < (if r >= 0 then r else -r) as real
    ensures (if r >= 0 then r else -r) as real <= (if x >= 0.0 then x else -x)
  {
    if x >= 0.0 then x.Floor else -((-x).Floor)
  }

  /** JavaScript's `x % y` on numbers: the remainder of the quotient
      truncated toward zero, carrying the sign of `x`. */
  function JsRemainder(x: real, y: real): real
    requires y != 0.0
  {
    x - y * (Trunc(x / y) as real)
  }

  /** The minutes of `formatTime`: `Math.floor(seconds / 60)`, the whole
      number of minutes elapsed. */
  function Minutes(seconds: real): (r: int)
    ensures (r as real) * 60.0 <= seconds < (r as real) * 60.0 + 60.0
  {
    (seconds / 60.0).Floor
  }

  /** The seconds of `formatTime`: `Math.floor(seconds % 60)`. */
  function RemainingSeconds(seconds: real): (r: int)
    ensures seconds >= 0.0 ==> 0 <= r < 60
    ensures seconds < 0.0 ==> -60 <= r <= 0
  {
    assert JsRemainder(seconds, 60.0) == seconds - 60.0 * (Trunc(seconds / 60.0) as real);
    JsRemainder(seconds, 60.0).Floor
  }

  /** `formatTime(seconds)`: minutes, a colon, and the seconds padded to two
      digits. For a time that is not negative the text reads back as its
      whole seconds: it is `m:ss` and `m * 60 + ss` is the floor of the time. */
  function FormatTime(seconds: real): (r: string)
    ensures seconds >= 0.0 ==> ReadClock(r) == Some(seconds.Floor)
  {
    var text := ClockText(seconds);
    if seconds >= 0.0 then ClockTextReadsBack(seconds); text else text
  }

  /** The text `formatTime` builds from the minutes and seconds parts. */
  function ClockText(seconds: real): string
  {
    IntDecimal(Minutes(seconds)) + ":" + PadStart(IntDecimal(RemainingSeconds(seconds)), 2, '0')
  }

  /** The clock text of a time that is not negative reads back as its whole seconds. */
  lemma ClockTextReadsBack(seconds: real)
    requires seconds >= 0.0
    ensures ReadClock(ClockText(seconds)) == Some(seconds.Floor)
  {
    ClockParts(seconds);
    var m: nat := Minutes(seconds);
    var sec: nat := RemainingSeconds(seconds);
    ClockTextOfParts(seconds, m, sec);
    ReadClockOf(m, sec);
  }

  /** The clock text spelled out from its two parts. */
  lemma ClockTextOfParts(seconds: real, m: nat, sec: nat)
    requires Minutes(seconds) == m && RemainingSeconds(seconds) == sec
    ensures ClockText(seconds) == Decimal(m) + ":" + PadStart(IntDecimal(sec), 2, '0')
  {
    assert IntDecimal(m) == Decimal(m);
  }

  /** For a time that is not negative, the seconds part lies in 0..59 and the
      two parts add up to the whole seconds elapsed. */
  lemma ClockParts(seconds: real)
    requires seconds >= 0.0
    ensures 0 <= Minutes(seconds) && 0 <= RemainingSeconds(seconds) < 60
    ensures Minutes(seconds) * 60 + RemainingSeconds(seconds) == seconds.Floor
  {
    var m := Minutes(seconds);
    assert m as real <= seconds / 60.0 < m as real + 1.0;
    assert 60.0 * (m as real) <= seconds < 60.0 * (m as real) + 60.0;
    assert Trunc(seconds / 60.0) == m;
    var rest := seconds - 60.0 * (m as real);
    assert JsRemainder(seconds, 60.0) == rest;
    var f := rest.Floor;
    assert f as real <= rest < f as real + 1.0;
    var g := seconds.Floor;
    assert g as real <= seconds < g as real + 1.0;
    assert f + 60 * m == g;
  }

  /** A whole number of seconds is shown exactly: minutes times 60 plus the
      seconds part gives it back. */
  lemma WholeSecondsExact(n: nat)
    ensures Minutes(n as real) * 60 + RemainingSeconds(n as real) == n
  {
    ClockParts(n as real);
  }

  /** Reading an `m:ss` clock text: digits, one colon, then exactly two digits
      worth less than 60; the value is in seconds. */
  function ReadClock(t: string): (r: Option<nat>)
  {
    match FindFirst(t, ":")
    case None => None
    case Some(i) =>
      var before, after := t[..i], t[i + 1..];
      if 1 <= |before| && AllDigits(before) && |after| == 2 && AllDigits(after) && DecimalValue(after) < 60
      then Some(DecimalValue(before) * 60 + DecimalValue(after))
      else None
  }

  /** The two-digit seconds text of a value below 60 reads back as that value. */
  lemma TwoDigits(n: nat)
    requires n < 60
    ensures var p := PadStart(IntDecimal(n), 2, '0');
            |p| == 2 && AllDigits(p) && DecimalValue(p) == n
  {
    var d := Decimal(n);
    DecimalRoundTrip(n);
    if n < 10 {
      assert PadStart(d, 2, '0') == "0" + d;
      LeadingZeroValue(d);
    }
  }

  /** The first colon of digits, a colon and more text is the one after the digits. */
  lemma ColonAfterDigits(d: string, rest: string)
    requires AllDigits(d)
    ensures FindFirst(d + ":" + rest, ":") == Some(|d|)
  {
    var t := d + ":" + rest;
    assert t[|d|..|d| + 1] == ":";
    assert OccursAt(t, ":", |d|);
    forall j | 0 <= j < |d|
      ensures !OccursAt(t, ":", j)
    {
      assert IsDigit(d[j]);
      assert t[j..j + 1] == [d[j]];
    }
  }

  /** A numeral, a colon and two digits worth less than 60 read as minutes and seconds. */
  lemma ReadClockOfParts(d: string, p: string, m: nat, sec: nat)
    requires 1 <= |d| && AllDigits(d) && DecimalValue(d) == m
    requires |p| == 2 && AllDigits(p) && DecimalValue(p) == sec && sec < 60
    ensures ReadClock(d + ":" + p) == Some(m * 60 + sec)
  {
    var t := d + ":" + p;
    ColonAfterDigits(d, p);
    assert t[..|d|] == d;
    assert t[|d| + 1..] == p;
  }

  /** A clock text built from minutes and a seconds value below 60 reads back
      as the total number of seconds. */
  lemma ReadClockOf(m: nat, sec: nat)
    requires sec < 60
    ensures ReadClock(Decimal(m) + ":" + PadStart(IntDecimal(sec), 2, '0')) == Some(m * 60 + sec)
  {
    var d := Decimal(m);
    var p := PadStart(IntDecimal(sec), 2, '0');
    TwoDigits(sec);
    DecimalRoundTrip(m);
    ReadClockOfParts(d, p, m, sec);
  }

  /** What the player bar shows. */
  datatype PlayerBar = PlayerBar(
    image: Option<string>,
    title: string,
    artists: string,
    showsPause: bool,
    elapsed: string,
    total: string)

  /** `currentTrack.image?.[2]?.link || currentTrack.image?.[0]?.link`. */
  function Artwork(images: seq<Link>): (r: Option<string>)
    ensures |images| > 2 && images[2].link != "" ==> r == Some(images[2].link)
    ensures !(|images| > 2 && images[2].link != "") && images != [] ==> r == Some(images[0].link)
    ensures r.None? <==> images == []
  {
    if |images| > 2 && images[2].link != "" then Some(images[2].link)
    else if images != [] then Some(images[0].link)
    else None
  }

  /** `Player()`: nothing without a current track; otherwise its artwork, name
      and artists, the pause icon while playing, and the two clock texts. */
  function Render(currentTrack: Option<Track>, isPlaying: bool, progress: real, duration: real): (r: Option<PlayerBar>)
    ensures r.None? <==> currentTrack.None?
    ensures r.Some? ==>
              && r.value.title == currentTrack.value.name
              && r.value.artists == currentTrack.value.primaryArtists
              && r.value.image == Artwork(currentTrack.value.image)
              && r.value.showsPause == isPlaying
              && r.value.elapsed == FormatTime(progress)
              && r.value.total == FormatTime(duration)
  {
    match currentTrack
    case None => None
    case Some(track) =>
      Some(PlayerBar(Artwork(track.image), track.name, track.primaryArtists, isPlaying,
                     FormatTime(progress), FormatTime(duration)))
  }
}
