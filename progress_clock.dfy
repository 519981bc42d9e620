/**
  The local playback clock that music-player.tsx (lines 134-162) and
  now-playing.tsx (lines 125-147) both run: an effect that resets the shown
  time to `progressMs / 1000` and, while playing, installs a one-second
  interval whose updater adds a second, or, once the clock has reached the
  track's duration, pins it there, clears the interval and asks for a refetch.

  Seconds are exact reals, and one call of `Tick` (the `OnInterval` method) stands for one firing of the
  interval.
*/
module ProgressClock {

  /**
    The clock as a value: the seconds shown, whether an interval is installed,
    and how many end-of-track refetches the interval has asked for.
  */
  datatype Clock = Clock(time: real, running: bool, refetches: nat)

  /** `ms / 1000` */
  function Seconds(ms: int): (s: real)
    ensures s * 1000.0 == ms as real
  {
    ms as real / 1000.0
  }

  /**
    The effect body: the cleanup has cleared any earlier interval, the time
    is reset and a new interval is installed only when playing.
  */
  function Reset(c: Clock, progressMs: int, isPlaying: bool): (r: Clock)
    ensures r.time == Seconds(progressMs)
    ensures r.running <==> isPlaying
    ensures r.refetches == c.refetches
  {
    Clock(Seconds(progressMs), isPlaying, c.refetches)
  }

  /** One firing of the interval; a cleared interval does not fire. */
  function Tick(c: Clock, duration: real): (r: Clock)
    ensures !c.running ==> r == c
    ensures c.running && c.time < duration ==>
              r.running && r.time == c.time + 1.0 && r.time < duration + 1.0 && r.refetches == c.refetches
    ensures c.running && c.time >= duration ==>
              !r.running && r.time == duration && r.refetches == c.refetches + 1
  {
    if !c.running then c
    else if c.time >= duration then Clock(duration, false, c.refetches + 1)
    else c.(time := c.time + 1.0)
  }

  /** `n` firings in a row. */
  function Ticks(c: Clock, duration: real, n: nat): (r: Clock)
    ensures r.running ==> c.running
    ensures c.refetches <= r.refetches
    decreases n
  {
    if n == 0 then c else Ticks(Tick(c, duration), duration, n - 1)
  }

  /** Once the interval is cleared, nothing changes any more. */
  lemma {:induction false} StoppedStaysStopped(c: Clock, duration: real, n: nat)
    requires !c.running
    ensures Ticks(c, duration, n) == c
    decreases n
  {
    if n > 0 {
      StoppedStaysStopped(Tick(c, duration), duration, n - 1);
    }
  }

  /**
    While every tick starts below the duration, each adds exactly one second:
    after `n` of them the clock shows `n` seconds more, still running.
  */
  lemma {:induction false} TicksAdvance(c: Clock, duration: real, n: nat)
    requires c.running
    requires c.time + n as real < duration + 1.0
    ensures Ticks(c, duration, n) == c.(time := c.time + n as real)
    decreases n
  {
    if n > 0 {
      TicksAdvance(Tick(c, duration), duration, n - 1);
    }
  }

  /**
    Once the clock has had a tick at or past the duration it is pinned at the
    duration, the interval is cleared, and exactly one refetch was requested.
  */
  lemma {:induction false} TicksReachEnd(c: Clock, duration: real, n: nat)
    requires c.running && n >= 1
    requires c.time + (n - 1) as real >= duration
    ensures Ticks(c, duration, n) == Clock(duration, false, c.refetches + 1)
    decreases n
  {
    var c' := Tick(c, duration);
    if c.time >= duration {
      StoppedStaysStopped(c', duration, n - 1);
    } else {
      TicksReachEnd(c', duration, n - 1);
    }
  }

  /**
    From a time less than a second past the duration, the clock never shows a
    full second past it, and no run of ticks requests more than one refetch.
  */
  lemma {:induction false} TicksBounded(c: Clock, duration: real, n: nat)
    requires c.time < duration + 1.0
    ensures Ticks(c, duration, n).time < duration + 1.0
    ensures c.refetches <= Ticks(c, duration, n).refetches <= c.refetches + 1
    ensures Ticks(c, duration, n).refetches == c.refetches + 1 ==> !Ticks(c, duration, n).running
    decreases n
  {
    if n > 0 {
      var c' := Tick(c, duration);
      if c.running && c.time >= duration {
        StoppedStaysStopped(c', duration, n - 1);
      } else {
        TicksBounded(c', duration, n - 1);
      }
    }
  }

  /** The clock never runs backwards from a time at or below the duration. */
  lemma {:induction false} TicksMonotone(c: Clock, duration: real, n: nat)
    requires c.time <= duration
    ensures Ticks(c, duration, n).time >= c.time
    decreases n
  {
    if n > 0 {
      var c' := Tick(c, duration);
      if !c.running || c.time >= duration {
        StoppedStaysStopped(c', duration, n - 1);
      } else if c'.time <= duration {
        TicksMonotone(c', duration, n - 1);
      } else if n > 1 {
        TicksReachEnd(c', duration, n - 1);
      }
    }
  }

  /** Paused playback: after the effect runs, ticks change nothing. */
  lemma PausedClockHolds(c: Clock, progressMs: int, duration: real, n: nat)
    ensures Ticks(Reset(c, progressMs, false), duration, n) == Reset(c, progressMs, false)
  {
    StoppedStaysStopped(Reset(c, progressMs, false), duration, n);
  }

  /**
    The clock of one component instance: `currentTime` and the interval it
    installed, with the `duration` that interval's closure captured.
  */
  class PlaybackClock {
    var currentTime: real
    var intervalActive: bool
    var refetchRequests: nat
    var duration: real

    function View(): Clock
      reads this
    {
      Clock(currentTime, intervalActive, refetchRequests)
    }

    /** `useState(progressMs / 1000)`; no interval until the effect has run. */
    constructor (progressMs: int, durationMs: int)
      ensures View() == Clock(Seconds(progressMs), false, 0)
      ensures duration == Seconds(durationMs)
    {
      currentTime := Seconds(progressMs);
      intervalActive := false;
      refetchRequests := 0;
      duration := Seconds(durationMs);
    }

    /** The effect runs (on mount and whenever one of its dependencies changes). */
    method RunEffect(progressMs: int, durationMs: int, isPlaying: bool)
      modifies this
      ensures View() == Reset(old(View()), progressMs, isPlaying)
      ensures duration == Seconds(durationMs)
    {
      currentTime := Seconds(progressMs);
      intervalActive := isPlaying;
      duration := Seconds(durationMs);
    }

    /** The interval fires once. */
    method OnInterval()
      modifies this
      ensures View() == Tick(old(View()), old(duration))
      ensures duration == old(duration)
    {
      if intervalActive {
        if currentTime >= duration {
          intervalActive := false;
          refetchRequests := refetchRequests + 1;
          currentTime := duration;
        } else {
          currentTime := currentTime + 1.0;
        }
      }
    }

    /** `setCurrentTime(value)` from elsewhere in the component (the optimistic seek). */
    method SetTime(value: real)
      modifies this
      ensures View() == old(View()).(time := value)
      ensures duration == old(duration)
    {
      currentTime := value;
    }
  }

  /** Five ticks from the start of a 200-second track show five seconds. */
  lemma FiveTicksFromStart(c: Clock)
    ensures Ticks(Reset(c, 0, true), Seconds(200000), 5) == Clock(5.0, true, c.refetches)
  {
    TicksAdvance(Reset(c, 0, true), Seconds(200000), 5);
  }
}
