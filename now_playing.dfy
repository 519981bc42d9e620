/**
  src/components/now-playing.tsx: which of its four views `NowPlayingContent`
  renders, what the track view shows, and the read-only progress bar below
  it, driven by the clock of `ProgressClock`.
*/
module NowPlaying {
  import opened Wrappers
  import P = PlayingSchema
  import PC = ProgressClock
  import PB = ProgressBar

  /** The album art, or the music-note placeholder. */
  datatype Cover = CoverImage(src: string, alt: string) | Placeholder

  datatype TrackView = TrackView(
    cover: Cover, title: string, href: string, artistLine: string, albumName: string)

  datatype Content = Spinner | ErrorText | NotListening | Playing(view: TrackView)

  /** `names.join(sep)` */
  function Join(names: seq<string>, sep: string): (s: string)
    ensures names == [] ==> s == ""
    ensures |names| == 1 ==> s == names[0]
    decreases |names|
  {
    if names == [] then ""
    else if |names| == 1 then names[0]
    else names[0] + sep + Join(names[1..], sep)
  }

  /** Adding a name puts one separator and then that name at the end. */
  lemma {:induction false} JoinAppend(names: seq<string>, sep: string, name: string)
    requires names != []
    ensures Join(names + [name], sep) == Join(names, sep) + sep + name
    decreases |names|
  {
    var all := names + [name];
    assert all[0] == names[0];
    if |names| == 1 {
      assert all[1..] == [name];
    } else {
      assert all[1..] == names[1..] + [name];
      JoinAppend(names[1..], sep, name);
    }
  }

  /** The joined text has every name and one separator between each pair. */
  lemma {:induction false} JoinLength(names: seq<string>, sep: string)
    requires names != []
    ensures |Join(names, sep)| == TotalLength(names) + (|names| - 1) * |sep|
    decreases |names|
  {
    if |names| > 1 {
      JoinLength(names[1..], sep);
    }
  }

  function TotalLength(names: seq<string>): nat
    decreases |names|
  {
    if names == [] then 0 else |names[0]| + TotalLength(names[1..])
  }

  function ArtistNames(artists: seq<P.Artist>): (names: seq<string>)
    ensures |names| == |artists|
    ensures forall i :: 0 <= i < |artists| ==> names[i] == artists[i].name
  {
    seq(|artists|, i requires 0 <= i < |artists| => artists[i].name)
  }

  /** The artists line: the names in order, joined by `" & "`. */
  function ArtistLine(artists: seq<P.Artist>): (line: string)
    ensures artists == [] ==> line == ""
    ensures |artists| == 1 ==> line == artists[0].name
  {
    Join(ArtistNames(artists), " & ")
  }

  /** One more artist adds `" & "` and that name to the line. */
  lemma ArtistLineAppend(artists: seq<P.Artist>, a: P.Artist)
    requires artists != []
    ensures ArtistLine(artists + [a]) == ArtistLine(artists) + " & " + a.name
  {
    assert ArtistNames(artists + [a]) == ArtistNames(artists) + [a.name];
    JoinAppend(ArtistNames(artists), " & ", a.name);
  }

  /** The image is shown exactly when `imageUrl` is not empty (a falsy `""` gives the placeholder). */
  function CoverOf(album: P.Album): (c: Cover)
    ensures c.CoverImage? <==> album.imageUrl != ""
    ensures c.CoverImage? ==> c.src == album.imageUrl && c.alt == album.name + " cover"
  {
    if album.imageUrl != "" then CoverImage(album.imageUrl, album.name + " cover") else Placeholder
  }

  /**
    `NowPlayingContent` for a query state: pending wins over error, error
    over data, and a response that is not playing gives the idle text.
    Outside the pending and error states the query has data.
  */
  function NowPlayingContent(isPending: bool, isError: bool, data: Option<P.PlayingMusicResponse>): (c: Content)
    requires !isPending && !isError ==> data.Some?
    ensures c == Spinner <==> isPending
    ensures c == ErrorText <==> !isPending && isError
    ensures c == NotListening <==> !isPending && !isError && !data.value.isPlaying
    ensures c.Playing? <==> !isPending && !isError && data.value.isPlaying
    ensures c.Playing? ==>
              var item := data.value.currentItemPlaying;
              && (c.view.cover.CoverImage? <==> item.album.imageUrl != "")
              && (c.view.cover.CoverImage? ==> c.view.cover.src == item.album.imageUrl)
              && c.view.title == item.name && c.view.href == item.spotifyHref
              && c.view.albumName == item.album.name
              && c.view.artistLine == ArtistLine(item.artists)
              && (item.artists != [] ==>
                    |c.view.artistLine| == TotalLength(ArtistNames(item.artists)) + (|item.artists| - 1) * 3)
  {
    if isPending then Spinner
    else if isError then ErrorText
    else if !data.value.isPlaying then NotListening
    else
      var item := data.value.currentItemPlaying;
      var names := ArtistNames(item.artists);
      assert names != [] ==> |Join(names, " & ")| == TotalLength(names) + (|names| - 1) * 3 by {
        if names != [] {
          JoinLength(names, " & ");
        }
      }
      Playing(TrackView(CoverOf(item.album), item.name, item.spotifyHref, ArtistLine(item.artists), item.album.name))
  }

  /** The track's duration in seconds. */
  function Duration(track: P.PlayingMusicResponse): (d: real)
    ensures d * 1000.0 == track.currentItemPlaying.durationMs as real
    ensures track.currentItemPlaying.durationMs > 0 ==> d > 0.0
  {
    PC.Seconds(track.currentItemPlaying.durationMs)
  }

  /**
    `NowPlayingProgressBar`: after its effect has run, the shown time starts
    at the track's progress and never decreases; it stays below one second
    past the duration (the updater adds a whole second before it checks the
    duration), at most one refetch is requested, and the bar has no seek
    handler, so clicks do nothing.
  */
  lemma NowPlayingBarBounds(c: PC.Clock, track: P.PlayingMusicResponse, n: nat, position: real, mounted: bool)
    requires 0 <= track.currentItemPlaying.progressMs <= track.currentItemPlaying.durationMs
    ensures var start := PC.Reset(c, track.currentItemPlaying.progressMs, track.isPlaying);
            var t := PC.Ticks(start, Duration(track), n);
            && start.time * 1000.0 == track.currentItemPlaying.progressMs as real
            && start.time <= t.time < Duration(track) + 1.0
            && PB.ProgressPercentage(t.time, Duration(track)) >= 0.0
            && t.refetches <= c.refetches + 1
    ensures PB.HandleClick(false, mounted, position, Duration(track)).None?
  {
    var start := PC.Reset(c, track.currentItemPlaying.progressMs, track.isPlaying);
    var d := Duration(track);
    PC.TicksBounded(start, d, n);
    PC.TicksMonotone(start, d, n);
    if d > 0.0 {
      var t := PC.Ticks(start, d, n);
      assert t.time / d >= 0.0;
    }
  }

  /**
    The overshoot: a 1.5 s track playing from the start shows 2 s after two
    ticks, a fill of more than 100 percent, before the third tick pins it.
  */
  lemma OvershootBeforeClamp(c: PC.Clock)
    ensures PC.Ticks(PC.Reset(c, 0, true), 1.5, 2).time == 2.0
    ensures PB.ProgressPercentage(PC.Ticks(PC.Reset(c, 0, true), 1.5, 2).time, 1.5) > 100.0
    ensures PC.Ticks(PC.Reset(c, 0, true), 1.5, 3) == PC.Clock(1.5, false, c.refetches + 1)
  {
    PC.TicksAdvance(PC.Reset(c, 0, true), 1.5, 2);
    PC.TicksReachEnd(PC.Reset(c, 0, true), 1.5, 3);
  }
}
