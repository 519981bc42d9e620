# Spotify playback dashboard — a Dafny model of its player logic

The dashboard shows what its owner is listening to on Spotify and gives a
small remote control: pause/resume, skip next and previous, and a seek bar.
This project models the logic behind those controls and proves properties of
it:

- **The sync-retry loop** `refetchWithRetry` (`MusicPlayer.RefetchWithRetry`).
  After a successful command it polls the current-playing endpoint until the
  response shows the expected change: a new `isPlaying` value after
  pause/resume, or any successful read after a skip. Between reads it waits
  with a back-off. It gives up after `maxRetries` reads and accepts one final
  read. The method is a `while` loop over a sequence of read outcomes
  supplied by the caller. It is proved equal to the recursive reference
  function `MusicPlayer.Retry`, and the lemmas describe that function for
  every sequence of outcomes.
- **The local playback clock** (`ProgressClock`). One function and one class
  model the identical effects of music-player.tsx and now-playing.tsx:
  - each run of the effect resets the shown time to `progressMs / 1000`;
  - while playing, a one-second interval adds a second;
  - once the time has reached the duration, the interval pins it there,
    stops itself and asks for one refetch.
- **The seek slider** (`MusicPlayerBar.SeekSlider`). Its `isDragging` and
  `tempValue` state is driven by change, mouse-down, mouse-up and touch-end
  events. A release emits `Math.ceil(value * 1000)`. The module also models
  the shown value, the fill percentage and the `m:ss` labels (`TimeFormat`).
- **The read-only progress bar** (`ProgressBar`) and **the now-playing card**
  (`NowPlaying`): which view is rendered, the cover, the artist line and the
  bar's clock.
- **The zod payload schemas** of src/types (`Schema`, `PlayingSchema`,
  `CurrentPlayingResponseSchema`, `TopTracksSchema`, `UserPlayerSchema`).
  - Each parser accepts exactly what a field-by-field validity predicate
    describes.
  - What a parser returns holds the input's values.
  - The current-playing response survives an encode/parse round trip.

Modelling conventions:

- Times are exact reals. JavaScript's `Math.floor`, `Math.ceil`,
  `Math.trunc`, its `%` (the remainder takes the dividend's sign) and its
  printing of whole numbers are written out.
- Payloads are a `Json` datatype. zod's `.url()` check and the validity of
  `new Date(x)` are left abstract: the `Formats` record carries them as
  function values.
- zod reports every failing key, and every failing check within a field; the
  model carries only the first issue (path and kind), in the order the
  schema declares its keys and checks.

Behaviours of the code a reader may not expect:

- the clock keeps ticking while a command or the retry loop is pending, but
  the effect re-runs each time `isPauseResumePending` or `isWaitingForSync`
  changes (music-player.tsx:155-162), so the shown time jumps back to the
  last fetched `progressMs / 1000` (`ProgressClock.Reset`) when a command
  starts or ends and when a sync starts or ends;
- a second command can be sent while another is pending: each skip button is
  disabled only by its own pending flag, and `isWaitingForSync` disables only the
  pause/resume button and the seek bar;
- the shown time is not clamped when the effect resets it. Ticking stops
  only on the first tick at or past the duration, so the time can show up to
  a second past it (`NowPlaying.OvershootBeforeClamp`);
- `progressMs` must be positive, so 0 is rejected (`PlayingSchema.ZeroProgressRejected`);
- a seek starts no retry loop;
- after a skip, the loop ends at the first read that is not rejected, even
  when it still shows the old track (see Findings). So a run where the
  player reports the old track for several reads and then the new one ends
  on the new track only under the corrected loop
  (`MusicPlayer.SkipWhileTrackUnchanged`);
- a play-state loop started without a play state does not end on a read
  without data, because `undefined !== undefined` is false; it keeps polling
  (`MusicPlayer.PlayStateWithoutBaseline`);
- when every read is rejected, the final read's rejection becomes the result
  of the call (`MusicPlayer.AllReadsRejected`).

## Model

| member | source | states |
|---|---|---|
| `Schema.ParseString` | src/types/current-playing-music.ts:4 | accepts exactly a JSON string and returns it; a missing key is a `Required` issue |
| `Schema.ParseBool` | src/types/current-playing-music.ts:22 | accepts exactly a JSON boolean and returns it; a missing key is `Required` |
| `Schema.ParseUrl` | src/types/current-playing-music.ts:6 | accepts exactly a string that the URL check accepts, and returns it |
| `Schema.ParseNonEmptyString` | src/types/user-player.ts:8 | accepts exactly a string of length at least 1, and returns it |
| `Schema.ParsePositiveInt` | src/types/current-playing-music.ts:20 | accepts exactly an integral number above 0, and returns it as an integer |
| `Schema.ParseIntBetween` | src/types/top-tracks.ts:22 | accepts exactly an integral number within [lo, hi], and returns it |
| `Schema.ParseCoercedDate` | src/types/current-playing-music.ts:13 | accepts exactly an input that coerces to a valid date; a missing key is rejected |
| `Schema.ExpectObject` | src/types/current-playing-music.ts:3 | accepts exactly a JSON object and returns its members |
| `Schema.ParseItems` | src/types/current-playing-music.ts:19 | an array suffix passes iff every element passes its schema at its own index path; the result has one parsed value per element, in order |
| `Schema.ParseArray` | src/types/current-playing-music.ts:19 | passes iff the value is an array whose every element passes; element i of the result is element i's parse |
| `Schema.ToSafe` | src/types/current-playing-music.ts:59-64 | `success` is set iff parsing succeeded; then `data` is the parsed value and there is no error; otherwise the error is the issue and there is no data |
| `PlayingSchema.ParseArtist` | src/types/current-playing-music.ts:3-7 | passes iff it is an object with string `id` and `name` and a URL `url`; the artist holds those values |
| `PlayingSchema.ParseArtists` | src/types/current-playing-music.ts:19 | passes iff every element is a valid artist; parses element by element, in order |
| `PlayingSchema.ParseAlbum` | src/types/current-playing-music.ts:9-14 | passes iff `id` and `name` are strings, `imageUrl` is a URL and `releaseDate` coerces to a date; the album holds those values |
| `PlayingSchema.ParseItem` | src/types/current-playing-music.ts:16-26 | passes iff all nine keys are valid; a passing item has the input's values, with `durationMs` and `progressMs` positive |
| `PlayingSchema.ParseContext` | src/types/current-playing-music.ts:28-31 | passes iff `spotifyHref` is a URL and `type` is a string; the context holds both |
| `PlayingSchema.ParsePlaying` | src/types/current-playing-music.ts:33-38 | passes iff context, `isPlaying`, `currentlyPlayingType` and item are all valid; the response holds their parses |
| `PlayingSchema.ValidateCurrentPlayingMusic` | src/types/current-playing-music.ts:48-52 | succeeds iff the payload satisfies `playingSchema`; a success has a positive duration and progress, and the payload's own `isPlaying` |
| `PlayingSchema.SafeValidateCurrentPlayingMusic` | src/types/current-playing-music.ts:54-65 | gives the same verdict as `validateCurrentPlayingMusic`, with data on success and the issue on failure |
| `PlayingSchema.ArtistsRoundTrip` | src/types/current-playing-music.ts:3-7 | a list of artists with URL `url`s, written as JSON, parses back to itself |
| `PlayingSchema.AlbumRoundTrip` | src/types/current-playing-music.ts:9-14 | an album with a URL image and a valid date source parses back to itself |
| `PlayingSchema.ContextRoundTrip` | src/types/current-playing-music.ts:28-31 | a context with a URL `spotifyHref` parses back to itself |
| `PlayingSchema.ItemRoundTrip` | src/types/current-playing-music.ts:16-26 | an item meeting every refinement parses back to itself |
| `PlayingSchema.PlayingRoundTrip` | src/types/current-playing-music.ts:33-52 | every well-formed response, encoded as JSON, passes `validateCurrentPlayingMusic` unchanged |
| `PlayingSchema.TopLevelFieldsRequired` | src/types/current-playing-music.ts:33-38 | a payload missing any of the four top-level keys is rejected |
| `PlayingSchema.ZeroProgressRejected` | src/types/current-playing-music.ts:21 | a `progressMs` of 0 is rejected |
| `CurrentPlayingResponseSchema.ParseItem` | src/types/current-playing.music.ts:16-25 | passes iff the eight declared keys are valid, with `progressMs` not checked; the item holds the input's values |
| `CurrentPlayingResponseSchema.ParseResponse` | src/types/current-playing.music.ts:32-37 | passes iff all four top-level keys are valid; the response holds their parses |
| `CurrentPlayingResponseSchema.ValidateCurrentPlayingMusic` | src/types/current-playing.music.ts:48-52 | succeeds iff the payload satisfies this file's response schema; a success has a positive duration and the payload's `isPlaying` |
| `CurrentPlayingResponseSchema.SafeValidateCurrentPlayingMusic` | src/types/current-playing.music.ts:54-65 | gives the same verdict as this file's `validateCurrentPlayingMusic`, as a `safeParse` record |
| `CurrentPlayingResponseSchema.PlayingSchemaIsStricter` | src/types/current-playing.music.ts:16-37 | everything `playingSchema` accepts, this schema accepts, with equal values apart from the dropped `progressMs` |
| `CurrentPlayingResponseSchema.ProgressIsNotChecked` | src/types/current-playing.music.ts:16-25 | a payload that passes here but has no positive integral `progressMs` fails `playingSchema` |
| `TopTracksSchema.ParseDateString` | src/types/top-tracks.ts:13 | any string is accepted as a release date, and nothing else |
| `TopTracksSchema.ParseAlbum` | src/types/top-tracks.ts:9-14 | passes iff `id` and `name` are strings, `imageUrl` is a URL and `releaseDate` is a string; the album holds those values |
| `TopTracksSchema.ParseTrack` | src/types/top-tracks.ts:16-25 | passes iff every key is valid; a passing track has positive `durationMs` and `userRank` and a `popularity` within [0, 100], all taken from the input |
| `TopTracksSchema.ParseTracksResponse` | src/types/top-tracks.ts:27-29 | passes iff `tracks` is an array of valid tracks; track i is element i's parse |
| `TopTracksSchema.ValidateTracksResponse` | src/types/top-tracks.ts:36-38 | succeeds iff the payload satisfies `tracksResponseSchema`; every returned track has popularity in [0, 100], and rank and duration above 0 |
| `TopTracksSchema.SafeValidateTracksResponse` | src/types/top-tracks.ts:40-51 | gives the same verdict as `validateTracksResponse`, as a `safeParse` record |
| `TopTracksSchema.OneInvalidTrackRejectsAll` | src/types/top-tracks.ts:27-29 | one invalid track makes the whole response fail |
| `TopTracksSchema.PopularityOutOfRange` | src/types/top-tracks.ts:22 | a popularity below 0, above 100 or not whole rejects the track |
| `UserPlayerSchema.ParseSeekNewPosition` | src/types/user-player.ts:3-5 | accepts exactly an object whose `newPositionMs` is a positive integer, and returns it |
| `UserPlayerSchema.ParseSeekNewPositionResponse` | src/types/user-player.ts:7-9 | accepts exactly an object with a non-empty string `message`, and returns it |
| `UserPlayerSchema.SeekBodyRoundTrip` | src/types/user-player.ts:3-5 | a seek body written as JSON passes its schema iff its position is positive, and then parses back to itself |
| `UserPlayerSchema.EmptyMessageRejected` | src/types/user-player.ts:8 | an empty or missing `message` is rejected |
| `TimeFormat.NatToDecimal` | src/components/music-player-bar.tsx:26 | whole numbers print as at least one decimal digit, and as exactly one below 10 |
| `TimeFormat.IntToDecimal` | src/components/music-player-bar.tsx:26 | a negative number prints as `-` followed by its magnitude |
| `TimeFormat.DecimalRoundTrip` | src/components/music-player-bar.tsx:26 | reading the printed digits back gives the number |
| `TimeFormat.Trunc` | src/components/music-player-bar.tsx:25 | `x % 60` truncates the quotient toward zero: floor for x ≥ 0, minus the floor of −x below 0 |
| `TimeFormat.TwoDigits` | src/components/music-player-bar.tsx:26 | a zero-padded seconds field is two characters that read back as the seconds |
| `TimeFormat.JsRem` | src/components/music-player-bar.tsx:25 | for a positive divisor the remainder lies in [0, divisor) for a dividend that is not negative, and in (−divisor, 0] for a negative one |
| `TimeFormat.FormatTime` | src/components/music-player-bar.tsx:23-27 | for a time that is not negative: the whole minutes unpadded, `:`, and the whole seconds past the minute (floor of the time mod 60) as exactly two digits |
| `TimeFormat.FormatTimeShape` | src/components/music-player-bar.tsx:23-27 | for s ≥ 0: mins = floor(s/60) ≥ 0, 0 ≤ secs ≤ 59, mins·60 + secs = floor(s), and the text is the minutes, `:`, and exactly two digits of seconds |
| `TimeFormat.FormatTimeReadBack` | src/components/progress-bar.tsx:22-26 | the text has a colon three characters from the end and reads back as floor(s) seconds |
| `ProgressClock.Seconds` | src/components/now-playing.tsx:121 | `ms / 1000` is exact: multiplying back by 1000 gives the milliseconds |
| `ProgressClock.Reset` | src/components/music-player.tsx:134-138 | the effect shows `progressMs / 1000` and installs an interval iff playing |
| `ProgressClock.Tick` | src/components/music-player.tsx:140-149 | no interval: nothing changes; below the duration: +1 s; at or past it: pinned at the duration, stopped, one more refetch |
| `ProgressClock.Ticks` | src/components/now-playing.tsx:132-142 | a stopped interval is never restarted by ticking, and the refetch count never goes down |
| `ProgressClock.StoppedStaysStopped` | src/components/now-playing.tsx:128-130 | a cleared or never-installed interval changes nothing, however many seconds pass |
| `ProgressClock.TicksAdvance` | src/components/now-playing.tsx:132-142 | while below the duration, n ticks add exactly n seconds |
| `ProgressClock.TicksReachEnd` | src/components/now-playing.tsx:134-139 | once a tick starts at or past the duration, the clock is pinned there, stopped, after exactly one refetch request |
| `ProgressClock.TicksBounded` | src/components/now-playing.tsx:132-142 | from under a second past the duration, the clock stays under it and requests at most one refetch, after which it is stopped |
| `ProgressClock.TicksMonotone` | src/components/now-playing.tsx:132-142 | from at most the duration, ticking never lowers the shown time |
| `ProgressClock.PausedClockHolds` | src/components/music-player.tsx:135-138 | when the track is paused, the shown time stays at the reset value |
| `ProgressClock.FiveTicksFromStart` | src/components/music-player.tsx:134-150 | a 200 s track playing from 0 shows 5 s after five ticks, still running |
| `ProgressClock.PlaybackClock.constructor` | src/components/music-player.tsx:30-35 | starts at `progressMs / 1000` with no interval, and with duration `durationMs / 1000` |
| `ProgressClock.PlaybackClock.RunEffect` | src/components/music-player.tsx:134-160 | the new state is `Reset` of the old one, with the new duration captured |
| `ProgressClock.PlaybackClock.OnInterval` | src/components/music-player.tsx:140-149 | the new state is `Tick` of the old one |
| `ProgressClock.PlaybackClock.SetTime` | src/components/music-player.tsx:233 | only the shown time changes |
| `MusicPlayer.TrackChanged` | src/components/music-player.tsx:99-108 | a track-mode read with no data ends the loop and clears the flag; one with data does so iff its track id differs from the one before the skip |
| `MusicPlayer.PlayStateChanged` | src/components/music-player.tsx:112 | without data the read ends the loop iff a play state was passed; with data, iff `isPlaying` differs from the one passed |
| `MusicPlayer.Retry` | src/components/music-player.tsx:89-129 | the loop from `retries` reads on makes between one and `maxRetries + 1 - retries` more reads, waits at most once per read, and once before each in-loop read when it runs out |
| `MusicPlayer.NextDelay` | src/components/music-player.tsx:119 | the next delay is 1.2 times the delay, capped at 2000; from within [0, 2000] it never shrinks |
| `MusicPlayer.RefetchWithRetry` | src/components/music-player.tsx:81-130 | returns exactly the outcome, the read count, the delays and the final `isWaitingForSync` of `Retry` for the same reads |
| `MusicPlayer.RetryReturnsFirstEnding` | src/components/music-player.tsx:98-116 | the loop returns the first read that ends it, after k+1 reads and k+1 waits; the flag stays set only for an unchanged track |
| `MusicPlayer.RetryExhausts` | src/components/music-player.tsx:126-129 | when no in-loop read ends it, the loop makes `maxRetries` waits, clears the flag and returns read `maxRetries + 1` as it is |
| `MusicPlayer.RetryReads` | src/components/music-player.tsx:89-129 | at most `maxRetries + 1` reads; an early return is the first ending read; the extra read means none ended; a set flag means a track-mode read with the same id |
| `MusicPlayer.RetryDelays` | src/components/music-player.tsx:93-123 | the first wait is the initial delay; a rejected read keeps the delay and any other non-ending read grows it; waits never decrease and stay within [delay, 2000] |
| `MusicPlayer.BackoffSchedule` | src/components/music-player.tsx:85-119 | with the defaults and no change seen, the waits are 800, 960, 1152, 1382.4, 1658.88 ms and the sixth read is the final one |
| `MusicPlayer.AllReadsRejected` | src/components/music-player.tsx:120-129 | when every read is rejected: five 800 ms waits, six reads, flag cleared, and the call rejects |
| `MusicPlayer.PauseResumeCommand` | src/components/music-player.tsx:49-52 | pause exactly when the track prop says it is playing, otherwise resume |
| `MusicPlayer.PauseResumeFollowUp` | src/components/music-player.tsx:54-61 | on success: a `playState` retry against the old `isPlaying`; on error: one plain refetch |
| `MusicPlayer.SkipFollowUp` | src/components/music-player.tsx:65-78 | on success: a `track` retry against the old track id; on error: nothing |
| `MusicPlayer.PauseResumeRetry` | src/components/music-player.tsx:112-116 | after pause/resume, a read ends the loop iff it resolves with no data or a different `isPlaying`; the flag always ends cleared |
| `MusicPlayer.PlayStateWithoutBaseline` | src/components/music-player.tsx:112-122 | with no play state passed, a read without data does not end the loop; reads that all lack data give the full back-off and the final read, flag cleared |
| `MusicPlayer.SkipRetry` | src/components/music-player.tsx:98-110 | after a skip, the first read that is not rejected ends the loop; the flag stays set iff that read shows the same track id |
| `MusicPlayer.SkipLeavesWaitingFlagSet` | src/components/music-player.tsx:105-110 | a first read after a skip that still shows the old track returns at once with `isWaitingForSync` set, which disables pause/resume and the seek bar |
| `MusicPlayer.IntendedRetryClearsFlag` | src/components/music-player.tsx:105-110 | with the track branch retrying on an unchanged id, every run clears the flag and reads at most `maxRetries + 1` times |
| `MusicPlayer.SkipWhileTrackUnchanged` | src/components/music-player.tsx:98-110 | old track on every in-loop read: the corrected loop backs off five times and adopts the final read; the loop as written stops at once with the flag set |
| `MusicPlayer.IsAnyActionPending` | src/components/music-player.tsx:176-181 | true iff any of the four mutations is pending or a sync is awaited |
| `MusicPlayer.SliderDisabled` | src/components/music-player.tsx:183 | the seek bar is disabled iff the last seek failed or any action is pending |
| `MusicPlayer.PreviousDisabled` | src/components/music-player.tsx:192 | the previous button is disabled iff its own mutation is pending |
| `MusicPlayer.NextDisabled` | src/components/music-player.tsx:220 | the next button is disabled iff its own mutation is pending |
| `MusicPlayer.PauseResumeDisabled` | src/components/music-player.tsx:200 | pause/resume is disabled iff its mutation is pending or a sync is awaited |
| `MusicPlayer.PauseResumeLabel` | src/components/music-player.tsx:201 | the label reads `Pause` exactly when a click pauses, and `Play` exactly when it resumes |
| `MusicPlayer.PauseResumeIcons` | src/components/music-player.tsx:203-214 | exactly one icon: the loader iff busy, else pause while playing, else play |
| `MusicPlayer.ButtonMatchesIcon` | src/components/music-player.tsx:198-214 | the loader shows iff the button is disabled; an enabled button shows the pause icon iff a click pauses iff its label reads `Pause`, and the play icon iff its label reads `Play` |
| `MusicPlayer.GatingIsIndependent` | src/components/music-player.tsx:176-230 | whatever disables pause/resume or next disables the seek bar; each skip button depends on its own flag only |
| `MusicPlayer.OnSeek` | src/components/music-player.tsx:231-234 | sends `{ newPositionMs }` and moves the clock to `newPositionMs / 1000` at once, leaving the rest of the clock as it was |
| `MusicPlayerBar.Ceil` | src/components/music-player-bar.tsx:46 | `Math.ceil`: the least integer at or above x |
| `MusicPlayerBar.SeekPositionMs` | src/components/music-player-bar.tsx:46 | the emitted position is at least value·1000 and less than value·1000 + 1 |
| `MusicPlayerBar.WholeMillisecondsKept` | src/components/music-player-bar.tsx:46 | in exact arithmetic, a value that is a whole number of milliseconds is emitted exactly |
| `MusicPlayerBar.OnChange` | src/components/music-player-bar.tsx:29-34 | ignored while disabled; otherwise remembers the position and leaves dragging as it was |
| `MusicPlayerBar.OnMouseDown` | src/components/music-player-bar.tsx:36-40 | starts dragging unless disabled, keeping the remembered position |
| `MusicPlayerBar.OnMouseUp` | src/components/music-player-bar.tsx:42-51 | no effect unless a handler exists, the bar is enabled and a drag is on; then one seek to the remembered position or the current time, and back to idle |
| `MusicPlayerBar.DisplayValue` | src/components/music-player-bar.tsx:57-58 | the remembered position is shown only while dragging, otherwise the current time |
| `MusicPlayerBar.SliderValue` | src/components/music-player-bar.tsx:59 | the shown value when the duration is positive, else 0 |
| `MusicPlayerBar.ProgressPercentage` | src/components/music-player-bar.tsx:60 | 0 without a positive duration; otherwise shown value / duration · 100, within [0, 100] when the shown value is |
| `MusicPlayerBar.Labels` | src/components/music-player-bar.tsx:109-112 | the left label reads back as the whole seconds of the dragged position while a drag has one, else of the current time; the right one as the duration's |
| `MusicPlayerBar.Step` | src/components/music-player-bar.tsx:72-75 | only a mouse-up or touch-end of a drag, with a handler, on an enabled slider seeks; a disabled slider keeps its state; an enabled press starts a drag and an enabled release with a handler ends it |
| `MusicPlayerBar.Run` | src/components/music-player-bar.tsx:72-75 | events are handled in order, and there are never more seeks than events |
| `MusicPlayerBar.DisabledIgnoresEverything` | src/components/music-player-bar.tsx:29-51 | a disabled slider ignores every sequence of events and emits nothing |
| `MusicPlayerBar.NoHandlerNoSeek` | src/components/music-player-bar.tsx:43 | without `onSeek`, no sequence of events emits a seek |
| `MusicPlayerBar.NoSeekWithoutMouseDown` | src/components/music-player-bar.tsx:36-55 | from a non-dragging state, events without a mouse-down (a touch drag) never emit a seek and never start a drag |
| `MusicPlayerBar.ChangesDuringDrag` | src/components/music-player-bar.tsx:29-34 | during a drag, the last change wins and is what the thumb shows |
| `MusicPlayerBar.Drag` | src/components/music-player-bar.tsx:29-51 | press, one or more changes, release: exactly one seek, to the last position rounded up to whole ms, and the slider ends idle |
| `MusicPlayerBar.Click` | src/components/music-player-bar.tsx:42-51 | press and release without moving seeks to the remembered position or the current time |
| `MusicPlayerBar.RunAppend` | src/components/music-player-bar.tsx:72-75 | events handled one after another: two sequences run as their concatenation |
| `MusicPlayerBar.SeekSlider.constructor` | src/components/music-player-bar.tsx:20-21 | a new slider is idle: not dragging, no remembered position |
| `MusicPlayerBar.SeekSlider.HandleSliderChange` | src/components/music-player-bar.tsx:29-34 | the new state is `OnChange` of the old |
| `MusicPlayerBar.SeekSlider.HandleMouseDown` | src/components/music-player-bar.tsx:36-40 | the new state is `OnMouseDown` of the old |
| `MusicPlayerBar.SeekSlider.HandleMouseUp` | src/components/music-player-bar.tsx:42-51 | the new state and the emitted seek are `OnMouseUp` of the old state |
| `MusicPlayerBar.SeekSlider.HandleTouchEnd` | src/components/music-player-bar.tsx:53-55 | exactly what a mouse release does |
| `ProgressBar.ProgressPercentage` | src/components/progress-bar.tsx:19 | 0 without a positive duration; otherwise time/duration·100, within [0, 100] for 0 ≤ time ≤ duration, and exactly 100 at the duration |
| `ProgressBar.Labels` | src/components/progress-bar.tsx:48-51 | for times that are not negative, each label has its colon three characters from the end and reads back as the whole seconds of the current time and of the duration |
| `ProgressBar.PercentageMonotone` | src/components/progress-bar.tsx:19 | a later time never shows a smaller fill |
| `ProgressBar.HandleClick` | src/components/progress-bar.tsx:28-34 | no seek without `onSeek` or before mounting; otherwise a seek to fraction · duration, within [0, duration] for a fraction in [0, 1] |
| `ProgressBar.ClickAtFillSeeksToShownTime` | src/components/progress-bar.tsx:19-33 | clicking where the fill ends seeks to the time shown |
| `NowPlaying.Join` | src/components/now-playing.tsx:97 | join of no names is empty, of one name is that name |
| `NowPlaying.JoinAppend` | src/components/now-playing.tsx:97 | one more name adds the separator and that name at the end |
| `NowPlaying.JoinLength` | src/components/now-playing.tsx:97 | the joined text is every name plus one separator between each pair |
| `NowPlaying.ArtistLine` | src/components/now-playing.tsx:97 | no artists show an empty line, one artist shows just their name |
| `NowPlaying.ArtistLineAppend` | src/components/now-playing.tsx:97 | artists appear in order, separated by ` & ` |
| `NowPlaying.CoverOf` | src/components/now-playing.tsx:72-83 | the image is shown iff `imageUrl` is non-empty, with alt text `<album> cover`; otherwise the placeholder |
| `NowPlaying.NowPlayingContent` | src/components/now-playing.tsx:39-104 | pending gives the spinner, else error gives the error text, else not playing gives the idle text, else the track view: the image iff `imageUrl` is non-empty, the item's title, link and album name, and its artists' names with ` & ` between each pair |
| `NowPlaying.Duration` | src/components/now-playing.tsx:121 | the duration is `durationMs / 1000`, positive for a valid payload |
| `NowPlaying.NowPlayingBarBounds` | src/components/now-playing.tsx:117-155 | from a progress at most the duration: the time starts at the progress, never drops, stays under a second past the end, requests at most one refetch; clicks never seek |
| `NowPlaying.OvershootBeforeClamp` | src/components/now-playing.tsx:132-141 | a 1.5 s track shows 2 s (over 100 %) after two ticks, and is pinned at 1.5 s after the third |

## Left out

- Network calls, React Query and React rendering are left out. Each awaited `refetch()` is the next element of an outcome sequence passed in. Each mutation's success or failure is a parameter. The query's pending and error flags are parameters.
- Timers are left out. Each `setTimeout` wait is recorded as a delay, and each firing of the interval is one call of `OnInterval`/`Tick`. Real elapsed time and timer drift are not modelled.
- Effects cleaning each other up is left out. `RunEffect` replaces the one interval; the effect re-running on `isPauseResumePending` and `isWaitingForSync` (music-player.tsx:155-162) is just another `RunEffect` call.
- Concurrency is left out. Two overlapping retry loops, or a tick racing a seek, are not modelled.
- `console` logging is left out, and so is the retry that `refetch` itself may perform inside React Query.
- The content of zod's URL check and of `new Date(...)` is left out; both are abstract predicates in `Formats`.
- zod's list of all failing keys and checks, and its error messages, are left out. Only the first issue is carried.
- Types are inferred at compile time in the source; here they are datatypes. Keys a schema does not declare are dropped, as zod does.
- Floating point is left out. Times, percentages and the 1.2 back-off factor are exact reals, so rounding of `delay * 1.2` is not modelled. So are `NaN` and infinities, e.g. a click on a bar of zero width.
- `MusicPlayerBar.WholeMillisecondsKept` and `MusicPlayerBar.SeekPositionMs` hold of exact reals only. With doubles the product `finalValue * 1000` can land just above a whole number, and `Math.ceil` then emits one millisecond more: a slider at 16.1 s (reachable with `step={0.1}`) gives `16100.000000000002` and emits 16101, and 2.007 s emits 2008.
- `MusicPlayerBar.SeekSlider.HandleSliderChange` takes the already parsed position; `parseFloat` of the input's text is not part of this model.
- `ProgressBar.HandleClick` takes the click position as a fraction of the bar's width; the bounding-box arithmetic is not part of this model.
- `NowPlaying.NowPlayingContent` requires data outside the pending and error states, as the query result's type guarantees. The layout and styling of each view are left out.
- The top-tracks schema's artist schema is word for word the one of current-playing-music.ts, so `TopTracksSchema` uses `PlayingSchema.ParseArtists`.
- The fetch functions and top-stats.tsx are not part of this model.

## Findings

| source | as written | input that shows it | evidently intended | confidence | as-written member | corrected member |
|---|---|---|---|---|---|---|
| src/components/music-player.tsx:105-110 | In track mode, a read that resolves with data still showing the old track id returns from the loop at once and leaves `isWaitingForSync` set. The pause/resume button and the seek bar stay disabled until some later retry loop clears the flag. | After a skip on track `t1`, the first read (after 800 ms) resolves with `currentItemPlaying.id == "t1"`, because the player has not switched yet. The call returns after one read with the flag still true. | Retry with the back-off while the id is unchanged, as the loop's purpose (waiting for the player to sync) and the playState branch do, and clear the flag on every exit. | medium; not executed | `MusicPlayer.SkipLeavesWaitingFlagSet` | `MusicPlayer.IntendedRetryClearsFlag` |
