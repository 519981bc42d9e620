/**
  src/components/progress-bar.tsx: the read-only progress bar. Its fill
  percentage, its `m:ss` labels (`TimeFormat.FormatTime`) and the seek a
  click asks for. The click position is given as the fraction of the bar's
  width left of the click.
*/
module ProgressBar {
  import opened Wrappers
  import opened TimeFormat

  /** `duration > 0 ? (currentTime / duration) * 100 : 0` */
  function ProgressPercentage(currentTime: real, duration: real): (p: real)
    ensures duration <= 0.0 ==> p == 0.0
    ensures duration > 0.0 ==> p * duration == currentTime * 100.0
    ensures duration > 0.0 && 0.0 <= currentTime <= duration ==> 0.0 <= p <= 100.0
    ensures duration > 0.0 && currentTime == duration ==> p == 100.0
  {
    if duration > 0.0 then currentTime / duration * 100.0 else 0.0
  }

  /** The percentage grows with the time shown. */
  lemma PercentageMonotone(t1: real, t2: real, duration: real)
    requires t1 <= t2
    ensures ProgressPercentage(t1, duration) <= ProgressPercentage(t2, duration)
  {
    if duration > 0.0 {
      assert (t2 - t1) / duration >= 0.0;
      assert ProgressPercentage(t2, duration) - ProgressPercentage(t1, duration) == (t2 - t1) / duration * 100.0;
    }
  }

  /**
    `handleClick`: nothing without an `onSeek` handler or before the bar is
    mounted; otherwise a seek to `position * duration`.
  */
  function HandleClick(hasOnSeek: bool, mounted: bool, position: real, duration: real): (seek: Option<real>)
    ensures seek.Some? <==> hasOnSeek && mounted
    ensures seek.Some? ==> seek.value == position * duration
    ensures seek.Some? && 0.0 <= position <= 1.0 && duration >= 0.0 ==> 0.0 <= seek.value <= duration
  {
    if !hasOnSeek || !mounted then None else Some(position * duration)
  }

  /** Clicking where the fill ends seeks to the time the bar shows. */
  lemma ClickAtFillSeeksToShownTime(currentTime: real, duration: real)
    requires duration > 0.0
    ensures HandleClick(true, true, ProgressPercentage(currentTime, duration) / 100.0, duration)
            == Some(currentTime)
  {
    var p := ProgressPercentage(currentTime, duration);
    assert p * duration == currentTime * 100.0;
    FillFraction(p, duration, currentTime);
  }

  /** A fill `p` with `p * d == t * 100` is a click at `p / 100`, which seeks to `t`. */
  lemma FillFraction(p: real, d: real, t: real)
    requires p * d == t * 100.0
    ensures HandleClick(true, true, p / 100.0, d) == Some(t)
  {
    assert p / 100.0 * d == p * d / 100.0;
  }

  /**
    The two labels under the bar, `formatTime(currentTime)` and
    `formatTime(duration)`: for times that are not negative each is an
    `m:ss` text that reads back as the whole seconds of its time.
  */
  function Labels(currentTime: real, duration: real): (labels: (string, string))
    ensures currentTime >= 0.0 ==> ClockSeconds(labels.0) == currentTime.Floor
    ensures duration >= 0.0 ==> ClockSeconds(labels.1) == duration.Floor
    ensures currentTime >= 0.0 ==> |labels.0| >= 4 && labels.0[|labels.0| - 3] == ':'
    ensures duration >= 0.0 ==> |labels.1| >= 4 && labels.1[|labels.1| - 3] == ':'
  {
    LabelReadsBack(currentTime);
    LabelReadsBack(duration);
    (FormatTime(currentTime), FormatTime(duration))
  }

  lemma LabelReadsBack(t: real)
    ensures t >= 0.0 ==> |FormatTime(t)| >= 4 && FormatTime(t)[|FormatTime(t)| - 3] == ':'
    ensures t >= 0.0 ==> ClockSeconds(FormatTime(t)) == t.Floor
  {
    if t >= 0.0 {
      FormatTimeReadBack(t);
    }
  }
}
