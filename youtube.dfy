/** The YouTube adapter's pure parts: reading an ISO 8601 duration of the
    form `PTnHnMnS` (ISO 8601:2004, section 4.4.3.2, time components only)
    into seconds, and mapping API items to player records. */
module YouTube {
  import opened Maybe
  import opened Text
  import opened Tracks

  /** The three capture groups of `/PT(\d+H)?(\d+M)?(\d+S)?/`, each as read by `parseInt`. */
  datatype DurationMatch = DurationMatch(hours: Option<nat>, minutes: Option<nat>, seconds: Option<nat>)

  /** One optional group `(\d+U)?` tried at the front of `t`: the run of
      digits there, when the letter `unit` follows it, and how many characters
      the group takes (0 when it does not take part). */
  function Group(t: string, unit: char): (r: (Option<nat>, nat))
    ensures r.1 <= |t|
  {
    var k := LeadingDigits(t);
    if k > 0 && k < |t| && t[k] == unit then
      (Some(DecimalValue(t[..k])), k + 1)
    else
      (None, 0)
  }

  /** `duration.match(/PT(\d+H)?(\d+M)?(\d+S)?/)`: the match starts at the first
      `PT`, after which every group is optional, so a match exists exactly when
      `PT` occurs. */
  function MatchDuration(s: string): (r: Option<DurationMatch>)
    ensures r.None? <==> forall i :: !OccursAt(s, "PT", i)
  {
    match FindFirst(s, "PT")
    case None => None
    case Some(i) =>
      var afterPT := s[i + 2..];
      var (hours, n1) := Group(afterPT, 'H');
      var afterHours := afterPT[n1..];
      var (minutes, n2) := Group(afterHours, 'M');
      var (seconds, _) := Group(afterHours[n2..], 'S');
      Some(DurationMatch(hours, minutes, seconds))
  }

  /** A group that did not take part contributes nothing. */
  function Part(g: Option<nat>): nat
  {
    match g
    case Some(n) => n
    case None => 0
  }

  /** The number of seconds the source computes for a duration string. */
  function DurationSeconds(s: string): (r: nat)
    ensures (forall i :: !OccursAt(s, "PT", i)) ==> r == 0
  {
    match MatchDuration(s)
    case None => 0
    case Some(g) => Part(g.hours) * 3600 + Part(g.minutes) * 60 + Part(g.seconds)
  }

  /** `convertYouTubeDuration`: 0 without a match, else the present groups
      added into a running total. */
  method ConvertYouTubeDuration(duration: string) returns (totalSeconds: nat)
    ensures totalSeconds == DurationSeconds(duration)
  {
    var found := MatchDuration(duration);
    if found.None? {
      return 0;
    }
    var g := found.value;
    totalSeconds := 0;
    if g.hours.Some? {
      totalSeconds := totalSeconds + g.hours.value * 3600;
    }
    if g.minutes.Some? {
      totalSeconds := totalSeconds + g.minutes.value * 60;
    }
    if g.seconds.Some? {
      totalSeconds := totalSeconds + g.seconds.value;
    }
  }

  /** The text of one time component: its number and designator letter, or nothing. */
  function Component(v: Option<nat>, designator: char): string
  {
    match v
    case Some(n) => Decimal(n) + [designator]
    case None => ""
  }

  /** The `PTnHnMnS` form with any of its components left out. */
  function TimeDuration(hours: Option<nat>, minutes: Option<nat>, seconds: Option<nat>): string
  {
    "PT" + Component(hours, 'H') + Component(minutes, 'M') + Component(seconds, 'S')
  }

  /** No group `(\d+U)?` for the designator `unit` starts at the front of `t`. */
  predicate NoGroup(t: string, unit: char)
  {
    var k := LeadingDigits(t);
    !(k > 0 && k < |t| && t[k] == unit)
  }

  /** A component with another designator, or nothing followed by such a
      text, starts no group for `unit`. */
  lemma ComponentNoGroup(v: Option<nat>, other: char, unit: char, rest: string)
    requires !IsDigit(other) && other != unit
    requires v.None? ==> NoGroup(rest, unit)
    ensures NoGroup(Component(v, other) + rest, unit)
  {
    if v.Some? {
      var d := Decimal(v.value);
      assert Component(v, other) + rest == d + ([other] + rest);
      LeadingDigitsOfNumeral(d, [other] + rest);
    } else {
      assert Component(v, other) + rest == rest;
    }
  }

  /** The group `(\d+U)?` in front of a component with designator `unit` reads
      it: its number when present, nothing otherwise, and takes its length. */
  lemma GroupOf(v: Option<nat>, unit: char, rest: string)
    requires !IsDigit(unit)
    requires v.None? ==> NoGroup(rest, unit)
    ensures Group(Component(v, unit) + rest, unit) == (v, |Component(v, unit)|)
  {
    var t := Component(v, unit) + rest;
    if v.Some? {
      var d := Decimal(v.value);
      assert t == d + ([unit] + rest);
      LeadingDigitsOfNumeral(d, [unit] + rest);
      assert t[..|d|] == d;
      DecimalRoundTrip(v.value);
    } else {
      assert t == rest;
    }
  }

  /** Where the components of `PT{h}H{m}M{s}S` lie after the `PT`. */
  lemma TimeDurationLayout(hours: Option<nat>, minutes: Option<nat>, seconds: Option<nat>)
    ensures var h, m, sec := Component(hours, 'H'), Component(minutes, 'M'), Component(seconds, 'S');
            var text := TimeDuration(hours, minutes, seconds);
            && |text| >= 2
            && text[..2] == "PT"
            && text[2..] == h + (m + sec)
  {
    var h, m, sec := Component(hours, 'H'), Component(minutes, 'M'), Component(seconds, 'S');
    assert TimeDuration(hours, minutes, seconds) == "PT" + (h + (m + sec));
  }

  /** The three groups read back the components that follow the `PT`. */
  lemma GroupsOfComponents(hours: Option<nat>, minutes: Option<nat>, seconds: Option<nat>)
    ensures var h, m, sec := Component(hours, 'H'), Component(minutes, 'M'), Component(seconds, 'S');
            && Group(h + (m + sec), 'H') == (hours, |h|)
            && Group(m + sec, 'M') == (minutes, |m|)
            && Group(sec, 'S').0 == seconds
  {
    var h, m, sec := Component(hours, 'H'), Component(minutes, 'M'), Component(seconds, 'S');
    assert NoGroup([], 'S') && NoGroup([], 'M') && NoGroup([], 'H');
    assert sec + [] == sec;
    ComponentNoGroup(seconds, 'S', 'H', []);
    ComponentNoGroup(seconds, 'S', 'M', []);
    ComponentNoGroup(minutes, 'M', 'H', sec);
    GroupOf(hours, 'H', m + sec);
    GroupOf(minutes, 'M', sec);
    GroupOf(seconds, 'S', []);
  }

  /** A text starting with `PT` followed by three pieces, each read by its
      group in turn, matches with those groups. */
  lemma MatchOfPieces(text: string, h: string, m: string, sec: string, g: DurationMatch)
    requires |text| >= 2 && text[..2] == "PT" && text[2..] == h + (m + sec)
    requires Group(h + (m + sec), 'H') == (g.hours, |h|)
    requires Group(m + sec, 'M') == (g.minutes, |m|)
    requires Group(sec, 'S').0 == g.seconds
    ensures MatchDuration(text) == Some(g)
  {
    assert OccursAt(text, "PT", 0);
    assert FindFirst(text, "PT") == Some(0);
    assert (h + (m + sec))[|h|..] == m + sec;
    assert (m + sec)[|m|..] == sec;
  }

  /** The pattern matches `PT{h}H{m}M{s}S` at its start and its groups read
      back the components. */
  lemma MatchOfComponents(hours: Option<nat>, minutes: Option<nat>, seconds: Option<nat>)
    ensures MatchDuration(TimeDuration(hours, minutes, seconds)) == Some(DurationMatch(hours, minutes, seconds))
  {
    var h, m, sec := Component(hours, 'H'), Component(minutes, 'M'), Component(seconds, 'S');
    TimeDurationLayout(hours, minutes, seconds);
    GroupsOfComponents(hours, minutes, seconds);
    MatchOfPieces(TimeDuration(hours, minutes, seconds), h, m, sec, DurationMatch(hours, minutes, seconds));
  }

  /** Reading back `PT{h}H{m}M{s}S` gives its components, so the duration is
      `h*3600 + m*60 + s`, a missing component counting 0. */
  lemma DurationOfComponents(hours: Option<nat>, minutes: Option<nat>, seconds: Option<nat>)
    ensures MatchDuration(TimeDuration(hours, minutes, seconds)) == Some(DurationMatch(hours, minutes, seconds))
    ensures DurationSeconds(TimeDuration(hours, minutes, seconds))
            == Part(hours) * 3600 + Part(minutes) * 60 + Part(seconds)
  {
    MatchOfComponents(hours, minutes, seconds);
  }

  /** Without `PT` in it, a duration reads as 0 seconds; a duration with a day
      part, such as `P1DT2H`, is one of these. */
  lemma DurationWithoutTimePart(s: string)
    ensures (forall i :: !OccursAt(s, "PT", i)) ==> DurationSeconds(s) == 0
    ensures DurationSeconds("P1DT2H") == 0
  {
    var d := "P1DT2H";
    assert FindFrom(d, "PT", 5) == None;
    assert d[4..6] != "PT" by { assert d[4..6][0] == '2'; }
    assert d[3..5] != "PT" by { assert d[3..5][0] == 'T'; }
    assert d[2..4] != "PT" by { assert d[2..4][0] == 'D'; }
    assert d[1..3] != "PT" by { assert d[1..3][0] == '1'; }
    assert d[0..2] != "PT" by { assert d[0..2][1] == '1'; }
    assert FindFrom(d, "PT", 4) == None;
    assert FindFrom(d, "PT", 3) == None;
    assert FindFrom(d, "PT", 2) == None;
    assert FindFrom(d, "PT", 1) == None;
    assert FindFirst(d, "PT") == None;
  }

  /** The three thumbnail sizes of a search or video item. */
  datatype Thumbnails = Thumbnails(high: string, medium: string, small: string)

  /** An item of a search response. */
  datatype SearchItem = SearchItem(videoId: string, title: string, channelTitle: string, thumbnails: Thumbnails)

  /** An item of a video-details response, with its ISO 8601 duration. */
  datatype VideoItem = VideoItem(id: string, title: string, channelTitle: string, thumbnails: Thumbnails, duration: string)

  datatype YouTubeVideo = YouTubeVideo(
    id: string,
    name: string,
    primaryArtists: string,
    image: seq<Link>,
    downloadUrl: seq<Link>,
    duration: nat)

  function WatchUrl(videoId: string): string
  {
    "https://www.youtube.com/watch?v=" + videoId
  }

  /** The record a video becomes: id prefixed with `yt-`, one download link
      (the watch page) and the thumbnails from high to small. */
  function Video(videoId: string, title: string, channelTitle: string, t: Thumbnails, duration: nat): (r: YouTubeVideo)
    ensures |r.id| == |videoId| + 3 && r.id[..3] == "yt-" && r.id[3..] == videoId
    ensures |r.downloadUrl| == 1 && r.downloadUrl[0].link == WatchUrl(videoId)
    ensures r.image == [Link(t.high), Link(t.medium), Link(t.small)]
    ensures r.name == title && r.primaryArtists == channelTitle && r.duration == duration
  {
    YouTubeVideo("yt-" + videoId, title, channelTitle,
                 [Link(t.high), Link(t.medium), Link(t.small)], [Link(WatchUrl(videoId))], duration)
  }

  /** `new Map(items.map(item => [item.id, convertYouTubeDuration(...)]))`:
      for each id, the duration of the last details item that carries it. */
  function DurationMap(details: seq<VideoItem>): (m: map<string, nat>)
    ensures m.Keys == set k | 0 <= k < |details| :: details[k].id
  {
    if details == [] then map[]
    else
      var front := details[..|details| - 1];
      var last := details[|details| - 1];
      assert forall k :: 0 <= k < |front| ==> front[k] == details[k];
      DurationMap(front)[last.id := DurationSeconds(last.duration)]
  }

  /** The map holds, for an id, the duration of the last item carrying it. */
  lemma {:induction false} DurationMapLastWins(details: seq<VideoItem>, k: nat)
    requires k < |details|
    requires forall j :: k < j < |details| ==> details[j].id != details[k].id
    ensures details[k].id in DurationMap(details)
    ensures DurationMap(details)[details[k].id] == DurationSeconds(details[k].duration)
  {
    var front := details[..|details| - 1];
    if k < |details| - 1 {
      assert front[k] == details[k];
      DurationMapLastWins(front, k);
    }
  }

  /** The search mapping: each search item becomes a video record whose
      duration comes from the details map, 0 when its id is missing there. */
  function SearchVideos(items: seq<SearchItem>, durations: map<string, nat>): (r: seq<YouTubeVideo>)
    ensures |r| == |items|
    ensures forall k :: 0 <= k < |items| ==>
              && r[k].id == "yt-" + items[k].videoId
              && r[k].duration == (if items[k].videoId in durations then durations[items[k].videoId] else 0)
  {
    seq(|items|, k requires 0 <= k < |items| =>
      var item := items[k];
      Video(item.videoId, item.title, item.channelTitle, item.thumbnails,
            if item.videoId in durations then durations[item.videoId] else 0))
  }

  /** The details mapping: the video record with the duration read from the item. */
  function DetailsVideo(item: VideoItem): (r: YouTubeVideo)
    ensures r.id == "yt-" + item.id && r.duration == DurationSeconds(item.duration)
  {
    Video(item.id, item.title, item.channelTitle, item.thumbnails, DurationSeconds(item.duration))
  }

  /** Searching and fetching details describe a video by the same record when
      the details response carries that video. */
  lemma SearchAgreesWithDetails(item: SearchItem, details: seq<VideoItem>, k: nat)
    requires k < |details| && details[k].id == item.videoId
    requires forall j :: k < j < |details| ==> details[j].id != item.videoId
    requires details[k].title == item.title && details[k].channelTitle == item.channelTitle
    requires details[k].thumbnails == item.thumbnails
    ensures SearchVideos([item], DurationMap(details))[0] == DetailsVideo(details[k])
  {
    DurationMapLastWins(details, k);
  }
}
