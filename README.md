# Music player front end: playback state and library logic

This project models the logic of a browser music player written in React and
TypeScript. The models are in Dafny, and their properties are proved.
The player has three parts.

- **The queue player** (`useAudioHandlers`, with its volume handler `useVolumeHandler`).
  - It holds a queue of tracks, a cursor into it, the repeat and shuffle settings and an audio element.
  - `getNextIndex` picks the position that follows the cursor.
  - `nextTrack`, `previousTrack`, `playQueue` and `togglePlay` move the cursor and the play flag.
  - `handleVolumeChange` changes the volume without stopping a playing element.
- **The simple transport** (`AudioProvider` in `AudioContext.tsx`).
  - It has no queue: a current track, a play flag, progress, duration and a volume from 0 to 100.
  - Its handlers write the element's `src`, `currentTime` and `volume` in place.
- **The library lists and record mappers.**
  - Playlists and liked songs are lists that are rebuilt, never mutated.
  - The YouTube adapter reads ISO 8601 `PTnHnMnS` durations (ISO 8601:2004, section 4.4.3.2).
  - Three normalisers turn JioSaavn song records into the app's track shape, with `||` fallbacks.
  - The Saavn query is sanitised.
  - The player bar renders an `m:ss` clock.

The stateful parts are Dafny classes:
- `QueuePlayer.QueuePlayer`
- `Transport.AudioProvider`
- `VolumeHandler.VolumeControl`

Their methods state the whole new state. The browser's audio element is the value type
`Media.MediaElement`, covering `paused`, `src`, `currentTime`, `duration` and `volume`.
Its `play()`, `pause()` and source load are functions on that value.

The list updaters and mappers are pure functions. Randomness, clocks, UUIDs and
HTTP replies are parameters:
- a `random` draw in [0, 1) stands for `Math.random()`;
- `freshId` and `now` stand for `crypto.randomUUID()` and `new Date()`;
- a `reply` function gives the server's answer to a query.

JavaScript semantics are written out where the source relies on them:
- truthiness of `||` on strings (`Text.Truthy`, `Text.OrElse`);
- `parseInt` with whitespace skipping, a sign and the `0x` prefix (`SongMapper.ParseInt`);
- the first-occurrence `String.replace` (`Text.ReplaceFirst`);
- `padStart`;
- the truncating `%` (`PlayerView.JsRemainder`);
- the regular expressions `/PT(\d+H)?(\d+M)?(\d+S)?/` (`YouTube.MatchDuration`) and `/[^\w\s]/gi` (`Saavn.Sanitize`).

Where the code differs from what a reader might expect of a music player,
the model follows the code:
- At the end of a non-repeating queue, `nextTrack` changes nothing. It does not stop playback.
- A one-song shuffled queue replays its song under repeat-all. This goes through the second repeat-all branch of `nextTrack`.
- `setProgress` and the volume setters do not clamp their argument.
- No handler implements repeat-one.
- The transport's `togglePlay` has no guard for a missing track.

## Model

| member | source | states |
|---|---|---|
| QueuePlayer.AvailableIndicesShape | src/contexts/audio/useAudioHandlers.ts:47-50 | The shuffle candidates are the queue's positions with the cursor removed, in order. There are n-1 of them when the cursor is on the queue, else n. |
| QueuePlayer.NextIndex | src/contexts/audio/useAudioHandlers.ts:43-61 | No album gives -1. Under shuffle the result is -1 exactly when the queue has no other position; otherwise it is an in-range position other than the cursor. Without shuffle: cursor+1 inside the queue; at the last position 0 under repeat-all, else -1. A result for a cursor on the queue is always in range. |
| QueuePlayer.ShuffleCanChooseAnyOther | src/contexts/audio/useAudioHandlers.ts:46-54 | Every position other than the cursor is chosen by some draw of `Math.random()`. |
| QueuePlayer.NoNextUnderRepeatAll | src/contexts/audio/useAudioHandlers.ts:56-75 | Under repeat-all with the cursor on the queue, `getNextIndex` returns -1 only for a shuffled one-song queue. The fallback branch of `nextTrack` is reachable only there. |
| QueuePlayer.QueuePlayer.constructor | src/contexts/audio/useAudioHandlers.ts:4-15 | The hook starts from the provider's state, with the cursor on the queue or -1. |
| QueuePlayer.QueuePlayer.TogglePlay | src/contexts/audio/useAudioHandlers.ts:16-25 | Without an element nothing changes. Otherwise a paused element is asked to play and a playing one is paused. The play flag then equals `!paused` of the element. The queue, cursor and track are unchanged. |
| QueuePlayer.QueuePlayer.PlayQueue | src/contexts/audio/useAudioHandlers.ts:27-41 | An empty list changes nothing. Otherwise the queue is `Album("queue", "Queue", tracks, tracks[0].image)`, the cursor is 0, the track is `tracks[0]` and playing is on. The current track is the entry under the cursor. |
| QueuePlayer.QueuePlayer.NextTrack | src/contexts/audio/useAudioHandlers.ts:63-76 | No album or cursor -1 changes nothing. A next position becomes the cursor, with its song current and playing on. With none, repeat-all goes to position 0 (only a shuffled one-song queue gets there). Otherwise nothing changes and playing is not cleared. The cursor invariant is kept. |
| QueuePlayer.QueuePlayer.PreviousTrack | src/contexts/audio/useAudioHandlers.ts:78-87 | A cursor above 0 steps back one, with that song current and playing on. At 0, at -1 or with no album nothing changes: there is no wrap. |
| VolumeHandler.VolumeControl.constructor | src/contexts/audio/useVolumeHandler.ts:3-7 | The handler's state is the element, the `wasPlayingRef` cell and the provider's volume. |
| VolumeHandler.VolumeControl.HandleVolumeChange | src/contexts/audio/useVolumeHandler.ts:8-32 | No element changes nothing. Otherwise `wasPlaying` records `!paused` from before the change. A volume the element refuses is caught and changes neither volume. Otherwise both volumes become `newVolume`. A playing element is playing afterwards unless the platform paused it and then refused `play()`, which is caught. A paused element is never started. |
| Transport.MediaUrl | src/contexts/AudioContext.tsx:57 | The fifth download link when present and non-empty, else the first. None only when there are no links. |
| Transport.AudioProvider.constructor | src/contexts/AudioContext.tsx:19-23 | Initial state: no track, not playing, progress 0, duration 0, volume 100. |
| Transport.AudioProvider.PauseTrack | src/contexts/AudioContext.tsx:62-65 | The play flag is off and the element is paused. Nothing else changes. |
| Transport.AudioProvider.TogglePlay | src/contexts/AudioContext.tsx:67-74 | The play flag is negated, with or without a track. The element is paused or asked to play to match. Nothing else changes. |
| Transport.AudioProvider.PlayTrack | src/contexts/AudioContext.tsx:48-60 | Re-selecting the current id toggles the play flag and keeps both the track and the element's source. The element is then paused if it was playing, else asked to play. A different track becomes current with playing on. The element loads the `MediaUrl` of its downloads and is asked to play. |
| Transport.AudioProvider.SetProgress | src/contexts/AudioContext.tsx:83-88 | With an element, its `currentTime` and the progress both become the value, unclamped. Without one nothing changes. |
| Transport.AudioProvider.HandleTimeUpdate | src/contexts/AudioContext.tsx:76-81 | Progress and duration copy the element's `currentTime` and `duration`. |
| Transport.AudioProvider.HandleEnded | src/contexts/AudioContext.tsx:33-36 | Playing is off and progress is 0. The track stays current. The inline `onEnded` handler (line 114) only clears the play flag, which this includes. |
| Transport.AudioProvider.HandleError | src/contexts/AudioContext.tsx:28-31 | Playing is off and nothing else changes. |
| Transport.AudioProvider.SetVolume | src/contexts/AudioContext.tsx:90-94 | The volume is the value as given. The element's volume becomes `value / 100` unless the element refuses it, which is reported. |
| Tracks.SomeHasId | src/contexts/PlaylistContext.tsx:48 | `some(s => s.id === id)` holds exactly when an entry carries the id. |
| LikedSongs.IsLiked | src/contexts/LikedSongsContext.tsx:41-43 | An id is liked exactly when some entry of the list carries it. |
| LikedSongs.AddLikedSong | src/contexts/LikedSongsContext.tsx:30-35 | Unchanged when the id is already liked, else the song is appended. |
| LikedSongs.RemoveLikedSong | src/contexts/LikedSongsContext.tsx:37-39 | No entry with the id is left. The result is a subsequence of the list. Every entry with another id keeps its number of occurrences. |
| LikedSongs.LikedAfterAdd | src/contexts/LikedSongsContext.tsx:30-43 | After adding a song its id is liked, and every id liked before still is. |
| LikedSongs.LikedAfterRemove | src/contexts/LikedSongsContext.tsx:37-43 | After removing an id, an id is liked exactly when it is another id that was liked before. |
| LikedSongs.AddKeepsIdsUnique | src/contexts/LikedSongsContext.tsx:30-35 | Adding keeps a list free of duplicate ids. |
| LikedSongs.RemoveKeepsIdsUnique | src/contexts/LikedSongsContext.tsx:37-39 | Removing keeps a list free of duplicate ids. |
| LikedSongs.IsLikedDependsOnIds | src/contexts/LikedSongsContext.tsx:41-43 | Two lists with the same ids agree on `isLiked` for every id. |
| Playlists.CreatePlaylist | src/contexts/PlaylistContext.tsx:33-41 | Exactly one playlist is appended, with the fresh id, the name and no songs. The existing playlists are kept in order. |
| Playlists.AddToPlaylist | src/contexts/PlaylistContext.tsx:43-59 | The number of playlists is kept, and playlists with another id are unchanged. A target keeps its other fields. If it already holds the song's id it is unchanged; otherwise the song is appended to its songs. |
| Playlists.RemoveFromPlaylist | src/contexts/PlaylistContext.tsx:61-73 | The number of playlists is kept, and playlists with another id are unchanged. A target keeps its other fields and only its songs with another id, in order, each as many times as before. |
| Playlists.DeletePlaylist | src/contexts/PlaylistContext.tsx:75-77 | No playlist with the id remains. The rest keep their order, and each keeps its number of occurrences. |
| Playlists.GetPlaylist | src/contexts/PlaylistContext.tsx:79-81 | The first playlist with the id, or None exactly when no playlist has it. |
| Playlists.AddToPlaylistIdempotent | src/contexts/PlaylistContext.tsx:43-59 | Adding a song twice is the same as adding it once. |
| Playlists.RemoveUndoesAdd | src/contexts/PlaylistContext.tsx:43-73 | Removing a song just added to playlists that lacked its id restores the list. |
| Playlists.GetCreatedPlaylist | src/contexts/PlaylistContext.tsx:33-81 | `getPlaylist` finds a freshly created playlist under its new id. |
| Playlists.GetDeletedPlaylist | src/contexts/PlaylistContext.tsx:75-81 | After deleting an id, `getPlaylist` finds nothing under it. |
| Playlists.CreatesOnlyNonBlankNames | src/components/Library.tsx:17-22 | The library panel creates a playlist exactly when the input holds a character other than whitespace. The list is then one longer and the box is cleared. The new name is the trimmed input: non-empty, with no whitespace at either end. Otherwise the list and the box are unchanged. |
| Playlists.HandleCreatePlaylist | src/components/Library.tsx:17-22 | Input that trims to nothing leaves the list and the box as they are. Otherwise the existing playlists are kept and one empty playlist is appended, named by the trimmed input with the fresh id and time, and the box is cleared. |
| YouTube.Group | src/services/youtube.ts:69 | An optional group `(\d+U)?` consumes no more than the text it is tried on. |
| YouTube.MatchDuration | src/services/youtube.ts:69-70 | The pattern matches exactly when `PT` occurs in the text. |
| YouTube.DurationSeconds | src/services/youtube.ts:68-80 | A text in which `PT` does not occur is worth 0 seconds. |
| YouTube.ConvertYouTubeDuration | src/services/youtube.ts:68-80 | The running total over the three `+=` steps is the duration's value in seconds, never negative. |
| YouTube.DurationOfComponents | src/services/youtube.ts:72-79 | `PT{h}H{m}M{s}S` reads back as its components and gives `h*3600 + m*60 + s`. A missing component counts as 0, so a bare `PT` gives 0. |
| YouTube.DurationWithoutTimePart | src/services/youtube.ts:69-70 | A text without `PT` gives 0, and so does a day-part duration such as `P1DT2H`. |
| YouTube.GroupOf | src/services/youtube.ts:69 | The group for a designator reads the number written before it and consumes exactly that component. |
| YouTube.ComponentNoGroup | src/services/youtube.ts:69 | A component for one designator is not taken by the group for another. |
| YouTube.Video | src/services/youtube.ts:47-58 | The record (built the same way at lines 97-108) has id `yt-` + video id, exactly one download link (the watch URL), and thumbnails in the order high, medium, default. |
| YouTube.DurationMap | src/services/youtube.ts:40-45 | The map's keys are exactly the ids of the details items. |
| YouTube.DurationMapLastWins | src/services/youtube.ts:40-45 | For an id, the map holds the duration of the last details item carrying it. |
| YouTube.SearchVideos | src/services/youtube.ts:47-61 | One record per search item, in order. The duration is the mapped one, or 0 when the id is missing. |
| YouTube.DetailsVideo | src/services/youtube.ts:96-111 | The details record has id `yt-` + id and the duration read from its ISO 8601 text. |
| YouTube.SearchAgreesWithDetails | src/services/youtube.ts:40-111 | For the same video, the search mapping and the details mapping give the same record. |
| SongMapper.ParseIntOfNumeral | src/lib/song-mapper.ts:25 | `parseInt` reads back any decimal integer followed by text that cannot continue it: text with no digit at its start, and no `x` or `X` after a lone `0`. |
| SongMapper.ParseInt | src/lib/song-mapper.ts:25 | Blank text reads as NaN (None). A number is read only from text holding a digit. A negative result needs a minus sign as the first character after the leading whitespace. |
| SongMapper.ParseIntWithoutDigits | src/lib/song-mapper.ts:25 | Text without digits reads as NaN (None). |
| SongMapper.MagnitudeOfNumeral | src/lib/song-mapper.ts:25 | The digits `parseInt` reads from a decimal numeral are the numeral's value. |
| SongMapper.MapJioSaavnToAppFormat | src/lib/song-mapper.ts:12-27 | The id is copied. The name falls back song → title → '' and the artists singers → primary_artists → ''. There is one `500x500` image whose link has its first `150x150` rewritten. `downloadUrl` is empty exactly when `media_url` is not truthy, else one `320kbps` entry. The duration is `Duration` of the duration text. |
| SongMapper.Duration | src/lib/song-mapper.ts:25 | An empty duration counts as `'0'` and gives 0. Any other text gives what `parseInt` reads from it. |
| SongMapper.NameFallback | src/lib/song-mapper.ts:15-16 | The name is empty exactly when neither `song` nor `title` is truthy, and is otherwise the first truthy one. The same holds for the artists. |
| SongMapper.DurationOfNumeral | src/lib/song-mapper.ts:25 | A duration written as a decimal integer, followed by text that cannot continue it, maps to that integer. |
| SongMapper.ImageUpsized | src/lib/song-mapper.ts:19 | The first `150x150` of the image link becomes `500x500`, and the text around it is kept. |
| SearchApi.MapSong | src/lib/search-api.ts:47-54 | The id falls back to the random draw. The name falls back song → title → 'Unknown Title', and the artists singers → primary_artists → 'Unknown Artist'. There is exactly one image, its own or the default imgur URL. There is exactly one download entry, empty exactly when `media_url` is not truthy. |
| SearchApi.SearchSongs | src/lib/search-api.ts:9-68 | An empty query gives [] without a request. An HTTP error, a thrown failure or a body that is not an array gives the prefixed error message. Success means an array reply and maps it element by element, with the same length and order. |
| SearchApi.FoundSongsShape | src/lib/search-api.ts:47-57 | Every song found has exactly one non-empty image, one download entry, and a non-empty name and artists. |
| SearchApi.SucceedsOnlyOnArrays | src/lib/search-api.ts:41-44 | A non-empty query succeeds exactly when the reply is an array. |
| Saavn.Sanitize | src/lib/saavn.ts:11 | Every character outside `\w` and `\s` is removed: the result is a subsequence of the input, holds only kept characters, and keeps each kept character as many times as it occurs. |
| Saavn.SanitizeIdempotent | src/lib/saavn.ts:11 | Sanitising twice is sanitising once. |
| Saavn.Query | src/lib/saavn.ts:11 | The query is the sanitised title, a space and the sanitised artist. |
| Saavn.QueryJoinsParts | src/lib/saavn.ts:11 | The query is the sanitised title, a space and the sanitised artist. |
| Saavn.Lookup | src/lib/saavn.ts:34 | The url of the first image entry with the key, present exactly when some entry has the key. |
| Saavn.BestImage | src/lib/saavn.ts:33-34 | The image is the `500x500` url if truthy, else the `150x150` url, else the first value. It is None exactly when there are no images, and always one of the entries' urls. |
| Saavn.Describe | src/lib/saavn.ts:32-42 | The id, name and artists are copied. The single `downloadUrl` and the chosen image are wrapped in one-element lists. |
| Saavn.SearchTrackOnSaavn | src/lib/saavn.ts:9-47 | The result is present exactly when the reply for the sanitised query is an object whose `results` is a non-empty array. It is then the description of the first result; every failure gives null. |
| PlayerView.Trunc | src/components/Player.tsx:8 | Truncation toward zero: the floor of a non-negative value, minus the floor of the negated value for a negative one, and within 1 of the value in magnitude. |
| PlayerView.Minutes | src/components/Player.tsx:7 | The minutes are the whole number of 60-second spans elapsed: minutes*60 is at most the time, which is below minutes*60 + 60. |
| PlayerView.RemainingSeconds | src/components/Player.tsx:8 | For a non-negative time the seconds part lies in 0..59; for a negative time it lies in -60..0. |
| PlayerView.ClockParts | src/components/Player.tsx:6-8 | For a non-negative time the seconds part lies in 0..59, and minutes*60 + seconds is the time's floor. |
| PlayerView.WholeSecondsExact | src/components/Player.tsx:6-9 | For a whole number of seconds, minutes*60 + seconds gives it back. |
| PlayerView.TwoDigits | src/components/Player.tsx:9 | The padded seconds text of a value below 60 has exactly two digits and reads back as the value. |
| PlayerView.FormatTime | src/components/Player.tsx:6-10 | The clock text of a non-negative time is digits, one colon and two digits, and reads back as the time's whole seconds. |
| PlayerView.ClockTextReadsBack | src/components/Player.tsx:6-10 | The minutes, colon and padded seconds of a non-negative time read back as its whole seconds. |
| PlayerView.Artwork | src/components/Player.tsx:31 | The third image's link if non-empty, else the first image's. None only without images. |
| PlayerView.Render | src/components/Player.tsx:24-73 | Nothing is rendered exactly when there is no track. Otherwise: its artwork, name and artists, the pause icon exactly while playing, and the two clock texts. |

## Left out

- Network I/O: `fetch`, URL building, `encodeURIComponent` and the API key. A request is modelled by the reply it yields, given as a function parameter.
- Logging with `console.log` and `console.error`. It has no effect on results.
- Persistence in `localStorage` for the playlists and liked songs. Only the in-memory lists are modelled.
- The asynchronous resolution of `play()` and React's batching of `setState`. Each handler is one sequential step, and `play()` either starts the element at once or is refused.
- React hook closure details, such as stale values captured by `useCallback`.
- `toggleShuffle`, `toggleRepeat` and `seek`. Their bodies are not part of the source shown, so they are not modelled.
- The `type: 'youtube'` field of YouTube records. It is constant.
- The `data.items?.[0]` null check and the error paths of the YouTube requests. They sit in the I/O part; only the record mappings are modelled.
- Transport.AudioProvider.SetVolume: `value / 100` is exact real division, not IEEE-754 floating point.
- PlayerView.FormatTime: for negative times the clock text is defined but no property is proved, and NaN and Infinity inputs are not modelled.
- SongMapper.ParseInt: NaN is `None`. Digits of other Unicode scripts and results beyond 2^53 are not modelled.
- SearchApi.MapSong: `String(Math.random())` is the parameter `randomId`. A thrown value that is not an `Error` ('Unknown error') is not modelled.
- Saavn.BestImage: `Object.values` order is the order of the entries. JavaScript's ordering of integer-like keys and duplicate JSON keys are not modelled.
- Playlists.CreatePlaylist: the UUID is the parameter `freshId` and the date is the clock reading `now`.
- QueuePlayer.NextIndex: `Math.random()` is the parameter `random` in [0, 1).
- QueuePlayer.QueuePlayer.NextTrack, QueuePlayer.QueuePlayer.PreviousTrack and QueuePlayer.QueuePlayer.PlayQueue: they require the `Valid()` invariant: while a queue is loaded and the cursor is not -1, the cursor is a position of the queue. The model assumes the provider that owns this state keeps the invariant between calls. The provider is not part of this model.
- PlayerView.JsRemainder: its sign and bound are proved only for the divisor 60 that `formatTime` uses (in PlayerView.RemainingSeconds), not for an arbitrary divisor.
