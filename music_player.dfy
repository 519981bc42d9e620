/**
  The logic of src/components/music-player.tsx: the sync-retry loop
  `refetchWithRetry` run after a successful pause/resume or skip, the choice
  between pause and resume, the gating of the controls, and the optimistic
  seek. The component's playback clock is `ProgressClock.PlaybackClock`.

  Every wait on `setTimeout(delay)` is one loop iteration that records
  `delay`; every awaited `refetch()` takes the next element of a sequence of
  outcomes supplied by the caller.
*/
module MusicPlayer {
  import opened Wrappers
  import P = PlayingSchema
  import U = UserPlayerSchema
  import opened ProgressClock

  /** `expectedChange`: `"track"` or `"playState"`. */
  datatype ExpectedChange = TrackChange | PlayStateChange

  /** One awaited `refetch()`: it rejects, or resolves with the query's data (absent when nothing plays). */
  datatype ReadOutcome = Throws | Resolved(data: Option<P.PlayingMusicResponse>)

  /** The arguments of one `refetchWithRetry` call; `None` is an omitted (undefined) argument. */
  datatype RetryRequest = RetryRequest(
    change: ExpectedChange, currentTrackId: Option<string>, currentPlayState: Option<bool>)

  /**
    What one call of the loop comes to: the outcome it returns, how many reads
    it made, the delays it waited before its in-loop reads, and the value it
    left in `isWaitingForSync`.
  */
  datatype RetryRun = RetryRun(outcome: ReadOutcome, readCount: nat, delays: seq<real>, waitingForSync: bool)

  /**
    `AsWritten` is the loop of the source. `Intended` is the loop with the
    track branch retrying while the track id is unchanged, as its purpose
    (waiting for the player to reflect the command) evidently requires.
  */
  datatype Policy = AsWritten | Intended

  const DefaultMaxRetries: nat := 5
  const DefaultDelay: real := 800.0
  const MaxDelay: real := 2000.0

  /** `Math.min(delay * 1.2, 2000)` */
  function NextDelay(delay: real): (d: real)
    ensures d <= MaxDelay
    ensures d == delay * 1.2 || d == MaxDelay
    ensures d <= delay * 1.2
    ensures 0.0 <= delay <= MaxDelay ==> delay <= d
  {
    if delay * 1.2 < MaxDelay then delay * 1.2 else MaxDelay
  }

  /**
    Whether a track-mode read ends the loop and clears the flag: a read with
    no data returns at once ("the user stopped playing music"), and one with
    data when `result.data?.currentItemPlaying?.id !== currentTrackId`.
  */
  function TrackChanged(data: Option<P.PlayingMusicResponse>, currentTrackId: Option<string>): (b: bool)
    ensures data.None? ==> b
    ensures data.Some? ==> (b <==> currentTrackId != Some(data.value.currentItemPlaying.id))
  {
    data.None? || Some(data.value.currentItemPlaying.id) != currentTrackId
  }

  /**
    `result.data?.isPlaying !== currentPlayState`: without data the left side
    is `undefined`, so the read ends the loop exactly when a play state was
    passed; with data, when `isPlaying` differs from it (or none was passed).
  */
  function PlayStateChanged(data: Option<P.PlayingMusicResponse>, currentPlayState: Option<bool>): (b: bool)
    ensures data.None? ==> (b <==> currentPlayState.Some?)
    ensures data.Some? ==> (b <==> currentPlayState != Some(data.value.isPlaying))
  {
    (if data.None? then None else Some(data.value.isPlaying)) != currentPlayState
  }

  /** Whether a read leaves the loop early. */
  predicate Ends(policy: Policy, req: RetryRequest, o: ReadOutcome) {
    o.Resolved? &&
    match req.change
    case TrackChange => policy == AsWritten || TrackChanged(o.data, req.currentTrackId)
    case PlayStateChange => PlayStateChanged(o.data, req.currentPlayState)
  }

  /** Whether a read that ends the loop leaves `isWaitingForSync` set. */
  predicate LeavesWaiting(req: RetryRequest, o: ReadOutcome)
    requires o.Resolved?
  {
    req.change == TrackChange && !TrackChanged(o.data, req.currentTrackId)
  }

  /** The delays `prefix` waited before a run. */
  function AfterWaits(prefix: seq<real>, r: RetryRun): (r': RetryRun)
    ensures r'.delays == prefix + r.delays
    ensures r'.outcome == r.outcome && r'.readCount == r.readCount && r'.waitingForSync == r.waitingForSync
  {
    r.(delays := prefix + r.delays)
  }

  /**
    The loop from the iteration where `retries` reads have been made and the
    delay is `delay`: the reference definition the method is proved against.
  */
  function Retry(policy: Policy, req: RetryRequest, outcomes: seq<ReadOutcome>,
                 maxRetries: nat, retries: nat, delay: real): (r: RetryRun)
    requires retries <= maxRetries < |outcomes|
    ensures retries < r.readCount <= maxRetries + 1
    ensures |r.delays| <= r.readCount - retries
    ensures r.readCount == maxRetries + 1 ==> |r.delays| == maxRetries - retries
    decreases maxRetries - retries
  {
    if retries == maxRetries then
      RetryRun(outcomes[retries], retries + 1, [], false)
    else
      var o := outcomes[retries];
      if Ends(policy, req, o) then
        RetryRun(o, retries + 1, [delay], LeavesWaiting(req, o))
      else if o.Throws? then
        AfterWaits([delay], Retry(policy, req, outcomes, maxRetries, retries + 1, delay))
      else
        AfterWaits([delay], Retry(policy, req, outcomes, maxRetries, retries + 1, NextDelay(delay)))
  }

  /**
    `refetchWithRetry(expectedChange, currentTrackId, currentPlayState,
    maxRetries, delay)`, with its reads taken from `outcomes`. Every iteration
    either returns or increments `retries`; once `retries` reaches
    `maxRetries` the flag is cleared and one last read is returned as it is
    (a rejected read rejects the call).
  */
  method RefetchWithRetry(expectedChange: ExpectedChange, currentTrackId: Option<string>,
                          currentPlayState: Option<bool>, outcomes: seq<ReadOutcome>,
                          maxRetries: nat := DefaultMaxRetries, initialDelay: real := DefaultDelay)
    returns (result: ReadOutcome, readCount: nat, delays: seq<real>, isWaitingForSync: bool)
    requires maxRetries < |outcomes|
    ensures RetryRun(result, readCount, delays, isWaitingForSync)
            == Retry(AsWritten, RetryRequest(expectedChange, currentTrackId, currentPlayState),
                     outcomes, maxRetries, 0, initialDelay)
  {
    ghost var req := RetryRequest(expectedChange, currentTrackId, currentPlayState);
    isWaitingForSync := true;
    var retries: nat := 0;
    var delay := initialDelay;
    readCount := 0;
    delays := [];
    while retries < maxRetries
      invariant retries <= maxRetries
      invariant readCount == retries && |delays| == retries
      invariant isWaitingForSync
      invariant Retry(AsWritten, req, outcomes, maxRetries, 0, initialDelay)
                == AfterWaits(delays, Retry(AsWritten, req, outcomes, maxRetries, retries, delay))
      decreases maxRetries - retries
    {
      ghost var waited := delays;
      ghost var rest := Retry(AsWritten, req, outcomes, maxRetries, retries, delay);
      delays := delays + [delay];
      var outcome := outcomes[readCount];
      readCount := readCount + 1;
      WaitsAppend(waited, delay, rest, Ends(AsWritten, req, outcome));
      if outcome.Resolved? {
        if expectedChange == TrackChange {
          if outcome.data.None? {
            isWaitingForSync := false;
            result := outcome;
            return;
          }
          if Some(outcome.data.value.currentItemPlaying.id) != currentTrackId {
            isWaitingForSync := false;
            result := outcome;
            return;
          }
          result := outcome;
          return;
        } else if PlayStateChanged(outcome.data, currentPlayState) {
          isWaitingForSync := false;
          result := outcome;
          return;
        }
        retries := retries + 1;
        delay := NextDelay(delay);
      } else {
        retries := retries + 1;
      }
    }
    isWaitingForSync := false;
    result := outcomes[readCount];
    readCount := readCount + 1;
  }

  /**
    One more wait of `delay` after the waits `prefix`: when the read after it
    ends the loop, the run's delays are `prefix + [delay]`; otherwise the
    prefix grows by `delay` ahead of the rest of the run.
  */
  lemma WaitsAppend(prefix: seq<real>, delay: real, r: RetryRun, ends: bool)
    requires ends ==> |r.delays| == 1 && r.delays[0] == delay
    ensures ends ==> AfterWaits(prefix, r) == r.(delays := prefix + [delay])
    ensures forall r': RetryRun :: r == AfterWaits([delay], r') ==> AfterWaits(prefix, r) == AfterWaits(prefix + [delay], r')
  {
    if ends {
      assert r.delays == [delay];
    }
    forall r': RetryRun | r == AfterWaits([delay], r')
      ensures AfterWaits(prefix, r) == AfterWaits(prefix + [delay], r')
    {
      assert prefix + ([delay] + r'.delays) == (prefix + [delay]) + r'.delays;
    }
  }

  // ---------------------------------------------------------------------------
  // What the loop does, for every sequence of outcomes.

  /**
    The loop stops at the first read that ends it, returns that read, and has
    waited once before each of its reads.
  */
  lemma {:induction false} RetryReturnsFirstEnding(policy: Policy, req: RetryRequest, outcomes: seq<ReadOutcome>,
                                                   maxRetries: nat, retries: nat, delay: real, k: nat)
    requires retries <= k < maxRetries < |outcomes|
    requires Ends(policy, req, outcomes[k])
    requires forall i :: retries <= i < k ==> !Ends(policy, req, outcomes[i])
    ensures var r := Retry(policy, req, outcomes, maxRetries, retries, delay);
            && r.outcome == outcomes[k] && r.readCount == k + 1
            && |r.delays| == k + 1 - retries
            && r.waitingForSync == LeavesWaiting(req, outcomes[k])
    decreases k - retries
  {
    if retries < k {
      var d := if outcomes[retries].Throws? then delay else NextDelay(delay);
      RetryReturnsFirstEnding(policy, req, outcomes, maxRetries, retries + 1, d, k);
    }
  }

  /**
    When no in-loop read ends it, the loop makes `maxRetries` reads, clears the
    flag and returns the one final read, whatever it is.
  */
  lemma {:induction false} RetryExhausts(policy: Policy, req: RetryRequest, outcomes: seq<ReadOutcome>,
                                         maxRetries: nat, retries: nat, delay: real)
    requires retries <= maxRetries < |outcomes|
    requires forall i :: retries <= i < maxRetries ==> !Ends(policy, req, outcomes[i])
    ensures var r := Retry(policy, req, outcomes, maxRetries, retries, delay);
            && r.outcome == outcomes[maxRetries] && r.readCount == maxRetries + 1
            && |r.delays| == maxRetries - retries
            && !r.waitingForSync
    decreases maxRetries - retries
  {
    if retries < maxRetries {
      var d := if outcomes[retries].Throws? then delay else NextDelay(delay);
      RetryExhausts(policy, req, outcomes, maxRetries, retries + 1, d);
    }
  }

  /**
    The loop always ends, after at most `maxRetries + 1` reads; the last
    extra read happens only when no in-loop read ended it; and the flag is
    left set only by a track-mode read that still shows the same track.
  */
  lemma {:induction false} RetryReads(policy: Policy, req: RetryRequest, outcomes: seq<ReadOutcome>,
                                      maxRetries: nat, retries: nat, delay: real)
    requires retries <= maxRetries < |outcomes|
    ensures var r := Retry(policy, req, outcomes, maxRetries, retries, delay);
            && retries < r.readCount <= maxRetries + 1
            && (r.readCount <= maxRetries ==>
                  && |r.delays| == r.readCount - retries
                  && Ends(policy, req, outcomes[r.readCount - 1]) && r.outcome == outcomes[r.readCount - 1]
                  && (forall i :: retries <= i < r.readCount - 1 ==> !Ends(policy, req, outcomes[i])))
            && (r.readCount == maxRetries + 1 ==>
                  && |r.delays| == maxRetries - retries
                  && r.outcome == outcomes[maxRetries] && !r.waitingForSync
                  && (forall i :: retries <= i < maxRetries ==> !Ends(policy, req, outcomes[i])))
            && (r.waitingForSync ==>
                  && req.change == TrackChange && r.outcome.Resolved? && r.outcome.data.Some?
                  && Some(r.outcome.data.value.currentItemPlaying.id) == req.currentTrackId)
    decreases maxRetries - retries
  {
    if retries < maxRetries && !Ends(policy, req, outcomes[retries]) {
      var d := if outcomes[retries].Throws? then delay else NextDelay(delay);
      RetryReads(policy, req, outcomes, maxRetries, retries + 1, d);
    }
  }

  /**
    The delays: the first is the initial delay; a rejected read keeps the
    delay, any other read that does not end the loop multiplies it by 1.2 up
    to 2000; so from a delay within [0, 2000] they never decrease and never
    exceed 2000.
  */
  lemma {:induction false} RetryDelays(policy: Policy, req: RetryRequest, outcomes: seq<ReadOutcome>,
                                       maxRetries: nat, retries: nat, delay: real)
    requires retries <= maxRetries < |outcomes|
    requires 0.0 <= delay <= MaxDelay
    ensures var ds := Retry(policy, req, outcomes, maxRetries, retries, delay).delays;
            && retries + |ds| <= maxRetries
            && (|ds| > 0 ==> ds[0] == delay)
            && (forall i :: 0 <= i < |ds| ==> delay <= ds[i] <= MaxDelay)
            && (forall i :: 0 <= i < |ds| - 1 ==>
                  ds[i + 1] == if outcomes[retries + i].Throws? then ds[i] else NextDelay(ds[i]))
            && (forall i, j :: 0 <= i <= j < |ds| ==> ds[i] <= ds[j])
    decreases maxRetries - retries
  {
    if retries < maxRetries && !Ends(policy, req, outcomes[retries]) {
      var d := if outcomes[retries].Throws? then delay else NextDelay(delay);
      RetryDelays(policy, req, outcomes, maxRetries, retries + 1, d);
      var rest := Retry(policy, req, outcomes, maxRetries, retries + 1, d).delays;
      var ds := [delay] + rest;
      assert Retry(policy, req, outcomes, maxRetries, retries, delay).delays == ds;
      forall i | 0 <= i < |ds| - 1
        ensures ds[i + 1] == if outcomes[retries + i].Throws? then ds[i] else NextDelay(ds[i])
      {
        if i > 0 {
          assert ds[i + 1] == rest[i] && ds[i] == rest[i - 1];
          assert retries + i == (retries + 1) + (i - 1);
        }
      }
      forall i, j | 0 <= i <= j < |ds|
        ensures ds[i] <= ds[j]
      {
        if 0 < i {
          assert ds[i] == rest[i - 1] && ds[j] == rest[j - 1];
        }
      }
    }
  }

  /**
    With the default arguments and reads that never show the expected change,
    the waits are 800, 960, 1152, 1382.4 and 1658.88 ms, and the sixth read is
    the final one.
  */
  lemma BackoffSchedule(policy: Policy, req: RetryRequest, outcomes: seq<ReadOutcome>)
    requires DefaultMaxRetries < |outcomes|
    requires forall i :: 0 <= i < DefaultMaxRetries ==> outcomes[i].Resolved? && !Ends(policy, req, outcomes[i])
    ensures var r := Retry(policy, req, outcomes, DefaultMaxRetries, 0, DefaultDelay);
            && r.delays == [800.0, 960.0, 1152.0, 1382.4, 1658.88]
            && r.readCount == 6 && r.outcome == outcomes[5] && !r.waitingForSync
  {
    RetryExhausts(policy, req, outcomes, DefaultMaxRetries, 0, DefaultDelay);
    RetryDelays(policy, req, outcomes, DefaultMaxRetries, 0, DefaultDelay);
    var ds := Retry(policy, req, outcomes, DefaultMaxRetries, 0, DefaultDelay).delays;
    assert ds[0] == 800.0;
    assert ds[1] == NextDelay(ds[0]) == 960.0;
    assert ds[2] == NextDelay(ds[1]) == 1152.0;
    assert ds[3] == NextDelay(ds[2]) == 1382.4;
    assert ds[4] == NextDelay(ds[3]) == 1658.88;
  }

  /**
    A source that rejects every read: five waits of 800 ms (a rejection does
    not grow the delay), the flag is cleared, and the call rejects with the
    final read.
  */
  lemma AllReadsRejected(policy: Policy, req: RetryRequest, outcomes: seq<ReadOutcome>)
    requires DefaultMaxRetries < |outcomes|
    requires forall i :: 0 <= i <= DefaultMaxRetries ==> outcomes[i] == Throws
    ensures var r := Retry(policy, req, outcomes, DefaultMaxRetries, 0, DefaultDelay);
            && r.delays == [800.0, 800.0, 800.0, 800.0, 800.0]
            && r.readCount == 6 && r.outcome == Throws && !r.waitingForSync
  {
    RetryExhausts(policy, req, outcomes, DefaultMaxRetries, 0, DefaultDelay);
    RetryDelays(policy, req, outcomes, DefaultMaxRetries, 0, DefaultDelay);
  }

  // ---------------------------------------------------------------------------
  // The commands and what follows them.

  datatype PlaybackCommand = PausePlayer | ResumePlayer

  /** The pause/resume mutation: pause exactly when the track prop says it is playing. */
  function PauseResumeCommand(isPlaying: bool): (c: PlaybackCommand)
    ensures c == PausePlayer <==> isPlaying
    ensures c == ResumePlayer <==> !isPlaying
  {
    if isPlaying then PausePlayer else ResumePlayer
  }

  /** What a mutation's `onSuccess` / `onError` starts. */
  datatype FollowUp = NoFollowUp | PlainRefetch | RetryAfter(req: RetryRequest)

  /** Pause/resume: retry awaiting a change of `isPlaying` on success, one plain refetch on error. */
  function PauseResumeFollowUp(isPlaying: bool, succeeded: bool): (f: FollowUp)
    ensures succeeded ==> f == RetryAfter(RetryRequest(PlayStateChange, None, Some(isPlaying)))
    ensures !succeeded ==> f == PlainRefetch
  {
    if succeeded then RetryAfter(RetryRequest(PlayStateChange, None, Some(isPlaying))) else PlainRefetch
  }

  /** Skip next / previous: retry awaiting a track change on success; nothing on error. */
  function SkipFollowUp(trackId: string, succeeded: bool): (f: FollowUp)
    ensures succeeded ==> f == RetryAfter(RetryRequest(TrackChange, Some(trackId), None))
    ensures !succeeded ==> f == NoFollowUp
  {
    if succeeded then RetryAfter(RetryRequest(TrackChange, Some(trackId), None)) else NoFollowUp
  }

  /**
    After a pause/resume, the loop returns the first read that is not
    rejected and whose `isPlaying` differs from the value before the command
    (or that has no data), and always clears the waiting flag.
  */
  lemma PauseResumeRetry(isPlaying: bool, outcomes: seq<ReadOutcome>)
    requires DefaultMaxRetries < |outcomes|
    ensures var req := PauseResumeFollowUp(isPlaying, true).req;
            forall o :: Ends(AsWritten, req, o) <==>
              o.Resolved? && (o.data.None? || o.data.value.isPlaying != isPlaying)
    ensures !Retry(AsWritten, PauseResumeFollowUp(isPlaying, true).req, outcomes, DefaultMaxRetries, 0, DefaultDelay).waitingForSync
  {
    RetryReads(AsWritten, PauseResumeFollowUp(isPlaying, true).req, outcomes, DefaultMaxRetries, 0, DefaultDelay);
  }

  /**
    A play-state loop started without a play state: a read with no data does
    not end it (`undefined !== undefined` is false), so when every read
    resolves without data the loop waits with a growing delay, makes
    `maxRetries` reads and then returns the final read with the flag cleared.
  */
  lemma PlayStateWithoutBaseline(outcomes: seq<ReadOutcome>)
    requires DefaultMaxRetries < |outcomes|
    requires forall i :: 0 <= i < DefaultMaxRetries ==> outcomes[i] == Resolved(None)
    ensures !Ends(AsWritten, RetryRequest(PlayStateChange, None, None), Resolved(None))
    ensures var r := Retry(AsWritten, RetryRequest(PlayStateChange, None, None), outcomes, DefaultMaxRetries, 0, DefaultDelay);
            && r.delays == [800.0, 960.0, 1152.0, 1382.4, 1658.88]
            && r.readCount == 6 && r.outcome == outcomes[5] && !r.waitingForSync
  {
    BackoffSchedule(AsWritten, RetryRequest(PlayStateChange, None, None), outcomes);
  }

  /**
    After a skip, the first read that is not rejected ends the loop, and the
    flag is cleared only when that read has no data or shows another track.
  */
  lemma SkipRetry(trackId: string, outcomes: seq<ReadOutcome>, k: nat)
    requires k < DefaultMaxRetries < |outcomes|
    requires outcomes[k].Resolved? && forall i :: 0 <= i < k ==> outcomes[i] == Throws
    ensures var r := Retry(AsWritten, SkipFollowUp(trackId, true).req, outcomes, DefaultMaxRetries, 0, DefaultDelay);
            && r.outcome == outcomes[k] && r.readCount == k + 1
            && (r.waitingForSync <==> outcomes[k].data.Some? && outcomes[k].data.value.currentItemPlaying.id == trackId)
  {
    RetryReturnsFirstEnding(AsWritten, SkipFollowUp(trackId, true).req, outcomes, DefaultMaxRetries, 0, DefaultDelay, k);
  }

  // ---------------------------------------------------------------------------
  // The finding: a skip whose first successful read still shows the old track.

  /**
    As written, a skip whose first successful read still shows the same track
    returns after that one read with `isWaitingForSync` still set; only a
    later retry loop clears it, so until then the pause/resume button and
    the seek bar stay disabled.
  */
  lemma SkipLeavesWaitingFlagSet(trackId: string, data: P.PlayingMusicResponse, outcomes: seq<ReadOutcome>)
    requires DefaultMaxRetries < |outcomes|
    requires data.currentItemPlaying.id == trackId && outcomes[0] == Resolved(Some(data))
    ensures var r := Retry(AsWritten, SkipFollowUp(trackId, true).req, outcomes, DefaultMaxRetries, 0, DefaultDelay);
            r.readCount == 1 && r.waitingForSync
    ensures PauseResumeDisabled(PendingFlags(false, false, false, false, true))
    ensures SliderDisabled(false, PendingFlags(false, false, false, false, true))
  {
    RetryReturnsFirstEnding(AsWritten, SkipFollowUp(trackId, true).req, outcomes, DefaultMaxRetries, 0, DefaultDelay, 0);
  }

  /**
    The corrected loop keeps polling while the track is unchanged, so every
    run, for every request and every sequence of reads, ends with the waiting
    flag cleared; it still makes at most `maxRetries + 1` reads.
  */
  lemma IntendedRetryClearsFlag(req: RetryRequest, outcomes: seq<ReadOutcome>, maxRetries: nat, delay: real)
    requires maxRetries < |outcomes|
    ensures var r := Retry(Intended, req, outcomes, maxRetries, 0, delay);
            !r.waitingForSync && r.readCount <= maxRetries + 1
  {
    RetryReads(Intended, req, outcomes, maxRetries, 0, delay);
  }

  /**
    A skip where the player keeps reporting the old track for every in-loop
    read: the corrected loop polls with the usual back-off and adopts the
    final read with the flag cleared, while the loop as written stops at the
    first read with the flag still set.
  */
  lemma SkipWhileTrackUnchanged(trackId: string, outcomes: seq<ReadOutcome>)
    requires DefaultMaxRetries < |outcomes|
    requires forall i :: 0 <= i < DefaultMaxRetries ==>
               && outcomes[i].Resolved? && outcomes[i].data.Some?
               && outcomes[i].data.value.currentItemPlaying.id == trackId
    ensures var r := Retry(Intended, SkipFollowUp(trackId, true).req, outcomes, DefaultMaxRetries, 0, DefaultDelay);
            && r.outcome == outcomes[DefaultMaxRetries] && r.readCount == 6 && !r.waitingForSync
            && r.delays == [800.0, 960.0, 1152.0, 1382.4, 1658.88]
    ensures var r := Retry(AsWritten, SkipFollowUp(trackId, true).req, outcomes, DefaultMaxRetries, 0, DefaultDelay);
            r.outcome == outcomes[0] && r.readCount == 1 && r.waitingForSync
  {
    var req := SkipFollowUp(trackId, true).req;
    BackoffSchedule(Intended, req, outcomes);
    RetryReturnsFirstEnding(AsWritten, req, outcomes, DefaultMaxRetries, 0, DefaultDelay, 0);
  }

  // ---------------------------------------------------------------------------
  // The controls.

  datatype PendingFlags = PendingFlags(
    isSeekPending: bool, isPauseResumePending: bool, isNextPending: bool,
    isPreviousPending: bool, isWaitingForSync: bool)

  function IsAnyActionPending(f: PendingFlags): (b: bool)
    ensures b <==> f.isSeekPending || f.isPauseResumePending || f.isNextPending
                   || f.isPreviousPending || f.isWaitingForSync
  {
    f.isSeekPending || f.isPauseResumePending || f.isNextPending || f.isPreviousPending || f.isWaitingForSync
  }

  /** `disabled`, handed to the seek bar. */
  function SliderDisabled(isSeekError: bool, f: PendingFlags): (b: bool)
    ensures b <==> isSeekError || IsAnyActionPending(f)
    ensures !isSeekError && !IsAnyActionPending(f) ==> !b
  {
    isSeekError || IsAnyActionPending(f)
  }

  function PreviousDisabled(f: PendingFlags): (b: bool)
    ensures b <==> f.isPreviousPending
  {
    f.isPreviousPending
  }

  function NextDisabled(f: PendingFlags): (b: bool)
    ensures b <==> f.isNextPending
  {
    f.isNextPending
  }

  function PauseResumeDisabled(f: PendingFlags): (b: bool)
    ensures b <==> f.isPauseResumePending || f.isWaitingForSync
  {
    f.isPauseResumePending || f.isWaitingForSync
  }

  datatype Icon = LoaderIcon | PauseIcon | PlayIcon

  /** `aria-label` of the pause/resume button. */
  function PauseResumeLabel(isPlaying: bool): (s: string)
    ensures s == "Pause" <==> PauseResumeCommand(isPlaying) == PausePlayer
    ensures s == "Play" <==> PauseResumeCommand(isPlaying) == ResumePlayer
  {
    if isPlaying then "Pause" else "Play"
  }

  /** The icons rendered inside the pause/resume button, in order. */
  function PauseResumeIcons(isPlaying: bool, f: PendingFlags): (icons: seq<Icon>)
    ensures |icons| == 1
    ensures icons[0] == LoaderIcon <==> f.isPauseResumePending || f.isWaitingForSync
    ensures icons[0] == PauseIcon <==> isPlaying && !f.isPauseResumePending && !f.isWaitingForSync
    ensures icons[0] == PlayIcon <==> !isPlaying && !f.isPauseResumePending && !f.isWaitingForSync
  {
    (if f.isPauseResumePending || f.isWaitingForSync then [LoaderIcon] else [])
    + (if isPlaying && !f.isPauseResumePending && !f.isWaitingForSync then [PauseIcon] else [])
    + (if !isPlaying && !f.isPauseResumePending && !f.isWaitingForSync then [PlayIcon] else [])
  }

  /**
    The pause/resume button shows the loader exactly when it is disabled;
    when enabled its icon and its label both name the command a click issues.
  */
  lemma ButtonMatchesIcon(isPlaying: bool, f: PendingFlags)
    ensures PauseResumeDisabled(f) <==> PauseResumeIcons(isPlaying, f) == [LoaderIcon]
    ensures !PauseResumeDisabled(f) ==>
              (PauseResumeIcons(isPlaying, f) == [PauseIcon] <==> PauseResumeCommand(isPlaying) == PausePlayer)
    ensures !PauseResumeDisabled(f) ==>
              (PauseResumeIcons(isPlaying, f) == [PauseIcon] <==> PauseResumeLabel(isPlaying) == "Pause")
    ensures !PauseResumeDisabled(f) ==>
              (PauseResumeIcons(isPlaying, f) == [PlayIcon] <==> PauseResumeLabel(isPlaying) == "Play")
  {
    var icons := PauseResumeIcons(isPlaying, f);
    assert |icons| == 1;
  }

  /** Any pending action disables the seek bar; each skip button depends on its own flag only. */
  lemma GatingIsIndependent(isSeekError: bool, f: PendingFlags, g: PendingFlags)
    ensures PauseResumeDisabled(f) ==> SliderDisabled(isSeekError, f)
    ensures NextDisabled(f) ==> SliderDisabled(isSeekError, f)
    ensures f.isNextPending == g.isNextPending ==> NextDisabled(f) == NextDisabled(g)
    ensures f.isPreviousPending == g.isPreviousPending ==> PreviousDisabled(f) == PreviousDisabled(g)
  {
  }

  /**
    The seek bar's `onSeek`: send the seek mutation with `{ newPositionMs }`
    and move the clock there at once, before any confirmation.
  */
  method OnSeek(clock: PlaybackClock, newPositionMs: int) returns (body: U.UserPlayerSeekNewPosition)
    modifies clock
    ensures body == U.UserPlayerSeekNewPosition(newPositionMs)
    ensures clock.View() == old(clock.View()).(time := Seconds(newPositionMs))
    ensures clock.duration == old(clock.duration)
  {
    body := U.UserPlayerSeekNewPosition(newPositionMs);
    clock.SetTime(Seconds(newPositionMs));
  }
}
