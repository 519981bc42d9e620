/**
  src/components/music-player-bar.tsx: the seek slider of the player. Its
  two state variables, `isDragging` and `tempValue`, are the fields of
  `SeekSlider`; its handlers are the methods; each handler is specified by
  a function on `SliderState`, and event sequences by `Run`.
*/
module MusicPlayerBar {
  import opened Wrappers
  import opened TimeFormat
  import PB = ProgressBar

  /** `Math.ceil` */
  function Ceil(x: real): (r: int)
    ensures x <= r as real < x + 1.0
  {
    -((-x).Floor)
  }

  /** The position a release emits: `Math.ceil(finalValue * 1000)`, in milliseconds. */
  function SeekPositionMs(finalValue: real): (ms: int)
    ensures finalValue * 1000.0 <= ms as real < finalValue * 1000.0 + 1.0
  {
    Ceil(finalValue * 1000.0)
  }

  /** A position given in whole milliseconds is emitted unchanged. */
  lemma WholeMillisecondsKept(ms: int)
    ensures SeekPositionMs(ms as real / 1000.0) == ms
  {
    assert ms as real / 1000.0 * 1000.0 == ms as real;
  }

  datatype SliderState = SliderState(isDragging: bool, tempValue: Option<real>)

  const Idle := SliderState(false, None)

  /** `handleSliderChange`: ignored while disabled, otherwise remembers the position. */
  function OnChange(s: SliderState, disabled: bool, position: real): (r: SliderState)
    ensures disabled ==> r == s
    ensures !disabled ==> r.tempValue == Some(position) && r.isDragging == s.isDragging
  {
    if disabled then s else s.(tempValue := Some(position))
  }

  /** `handleMouseDown`: starts a drag unless disabled. */
  function OnMouseDown(s: SliderState, disabled: bool): (r: SliderState)
    ensures disabled ==> r == s
    ensures !disabled ==> r.isDragging && r.tempValue == s.tempValue
  {
    if disabled then s else s.(isDragging := true)
  }

  /** The state after a release, and the seek it emitted, if any. */
  datatype Release = Release(state: SliderState, seek: Option<int>)

  /**
    `handleMouseUp`: without a handler, while disabled or when no drag is
    in progress nothing happens; otherwise exactly one seek is emitted, to the
    remembered position or, if there is none, the current time, and the
    slider returns to idle.
  */
  function OnMouseUp(s: SliderState, hasOnSeek: bool, disabled: bool, currentTime: real): (r: Release)
    ensures !hasOnSeek || disabled || !s.isDragging ==> r == Release(s, None)
    ensures hasOnSeek && !disabled && s.isDragging ==>
              && r.state == Idle
              && r.seek == Some(SeekPositionMs(if s.tempValue.Some? then s.tempValue.value else currentTime))
  {
    if !hasOnSeek || disabled || !s.isDragging then Release(s, None)
    else
      var finalValue := if s.tempValue.Some? then s.tempValue.value else currentTime;
      Release(Idle, Some(SeekPositionMs(finalValue)))
  }

  /** `displayValue`: the remembered position only while dragging. */
  function DisplayValue(s: SliderState, currentTime: real): (v: real)
    ensures s.isDragging && s.tempValue.Some? ==> v == s.tempValue.value
    ensures !s.isDragging || s.tempValue.None? ==> v == currentTime
  {
    if s.isDragging && s.tempValue.Some? then s.tempValue.value else currentTime
  }

  /** `sliderValue` */
  function SliderValue(s: SliderState, currentTime: real, duration: real): (v: real)
    ensures duration > 0.0 ==> v == DisplayValue(s, currentTime)
    ensures duration <= 0.0 ==> v == 0.0
  {
    if duration > 0.0 then DisplayValue(s, currentTime) else 0.0
  }

  /** `progressPercentage`: the bar's fill, the same expression as the progress bar's, on the shown value. */
  function ProgressPercentage(s: SliderState, currentTime: real, duration: real): (p: real)
    ensures duration <= 0.0 ==> p == 0.0
    ensures duration > 0.0 ==> p * duration == DisplayValue(s, currentTime) * 100.0
    ensures duration > 0.0 && 0.0 <= DisplayValue(s, currentTime) <= duration ==> 0.0 <= p <= 100.0
  {
    PB.ProgressPercentage(DisplayValue(s, currentTime), duration)
  }

  /**
    The two labels, `formatTime(displayValue)` and `formatTime(duration)`,
    laid out as the progress bar's are: while a drag has a position the left
    one reads back as that position's whole seconds, otherwise as the
    current time's.
  */
  function Labels(s: SliderState, currentTime: real, duration: real): (labels: (string, string))
    ensures s.isDragging && s.tempValue.Some? && s.tempValue.value >= 0.0 ==>
              ClockSeconds(labels.0) == s.tempValue.value.Floor
    ensures (!s.isDragging || s.tempValue.None?) && currentTime >= 0.0 ==>
              ClockSeconds(labels.0) == currentTime.Floor
    ensures duration >= 0.0 ==> ClockSeconds(labels.1) == duration.Floor
  {
    PB.Labels(DisplayValue(s, currentTime), duration)
  }

  /** The DOM events the slider listens to. */
  datatype Event = Change(position: real) | MouseDown | MouseUp | TouchEnd

  /** The props the slider is rendered with. */
  datatype Props = Props(hasOnSeek: bool, disabled: bool, currentTime: real)

  /** One event under the props: only a release can seek, and only from a drag. */
  function Step(s: SliderState, p: Props, e: Event): (r: Release)
    ensures r.seek.Some? ==> (e == MouseUp || e == TouchEnd) && s.isDragging && p.hasOnSeek && !p.disabled
    ensures p.disabled ==> r.state == s
    ensures e == MouseDown && !p.disabled ==> r.state.isDragging
    ensures (e == MouseUp || e == TouchEnd) && p.hasOnSeek && !p.disabled ==> !r.state.isDragging
  {
    match e
    case Change(position) => Release(OnChange(s, p.disabled, position), None)
    case MouseDown => Release(OnMouseDown(s, p.disabled), None)
    case MouseUp => OnMouseUp(s, p.hasOnSeek, p.disabled, p.currentTime)
    case TouchEnd => OnMouseUp(s, p.hasOnSeek, p.disabled, p.currentTime)
  }

  /** The state after a sequence of events under fixed props, and the seeks emitted, in order. */
  datatype Trace = Trace(state: SliderState, seeks: seq<int>)

  function Run(s: SliderState, p: Props, events: seq<Event>): (t: Trace)
    ensures |t.seeks| <= |events|
    decreases |events|
  {
    if events == [] then Trace(s, [])
    else
      var r := Step(s, p, events[0]);
      var t := Run(r.state, p, events[1..]);
      Trace(t.state, (if r.seek.Some? then [r.seek.value] else []) + t.seeks)
  }

  /** A disabled slider ignores every event. */
  lemma {:induction false} DisabledIgnoresEverything(s: SliderState, p: Props, events: seq<Event>)
    requires p.disabled
    ensures Run(s, p, events) == Trace(s, [])
    decreases |events|
  {
    if events != [] {
      DisabledIgnoresEverything(s, p, events[1..]);
    }
  }

  /** Without an `onSeek` handler nothing is ever emitted. */
  lemma {:induction false} NoHandlerNoSeek(s: SliderState, p: Props, events: seq<Event>)
    requires !p.hasOnSeek
    ensures Run(s, p, events).seeks == []
    decreases |events|
  {
    if events != [] {
      NoHandlerNoSeek(Step(s, p, events[0]).state, p, events[1..]);
    }
  }

  /**
    Without a mouse-down a gesture never seeks: the component has no
    touch-start handler, so a touch drag (changes then a touch-end) is
    dropped and leaves its position remembered but not dragging.
  */
  lemma {:induction false} NoSeekWithoutMouseDown(s: SliderState, p: Props, events: seq<Event>)
    requires !s.isDragging
    requires forall i :: 0 <= i < |events| ==> events[i] != MouseDown
    ensures Run(s, p, events).seeks == []
    ensures !Run(s, p, events).state.isDragging
    decreases |events|
  {
    if events != [] {
      NoSeekWithoutMouseDown(Step(s, p, events[0]).state, p, events[1..]);
    }
  }

  /** Moving the thumb during a drag: each change overrides the last, and the thumb shows it. */
  lemma {:induction false} ChangesDuringDrag(s: SliderState, p: Props, positions: seq<real>)
    requires !p.disabled && s.isDragging && |positions| > 0
    ensures var t := Run(s, p, seq(|positions|, i requires 0 <= i < |positions| => Change(positions[i])));
            && t == Trace(SliderState(true, Some(positions[|positions| - 1])), [])
            && DisplayValue(t.state, p.currentTime) == positions[|positions| - 1]
    decreases |positions|
  {
    var events := seq(|positions|, i requires 0 <= i < |positions| => Change(positions[i]));
    var rest := positions[1..];
    assert events[1..] == seq(|rest|, i requires 0 <= i < |rest| => Change(rest[i]));
    if |rest| > 0 {
      ChangesDuringDrag(OnChange(s, p.disabled, positions[0]), p, rest);
    }
  }

  /**
    A full drag (press, one or more changes, release) on an enabled slider
    with a handler emits exactly one seek, to the last position in
    milliseconds rounded up, and leaves the slider idle.
  */
  lemma Drag(s: SliderState, p: Props, positions: seq<real>)
    requires p.hasOnSeek && !p.disabled && |positions| > 0
    ensures Run(s, p, [MouseDown] + seq(|positions|, i requires 0 <= i < |positions| => Change(positions[i])) + [MouseUp])
            == Trace(Idle, [SeekPositionMs(positions[|positions| - 1])])
  {
    var changes := seq(|positions|, i requires 0 <= i < |positions| => Change(positions[i]));
    var down := OnMouseDown(s, p.disabled);
    ChangesDuringDrag(down, p, positions);
    RunAppend(down, p, changes, [MouseUp]);
    var events := [MouseDown] + changes + [MouseUp];
    assert events[1..] == changes + [MouseUp];
  }

  /** A press and release without moving seeks to the remembered position, or else to the current time. */
  lemma Click(s: SliderState, p: Props)
    requires p.hasOnSeek && !p.disabled
    ensures Run(s, p, [MouseDown, MouseUp])
            == Trace(Idle, [SeekPositionMs(if s.tempValue.Some? then s.tempValue.value else p.currentTime)])
  {
    assert [MouseDown, MouseUp][1..] == [MouseUp];
  }

  /** Running two sequences of events one after the other. */
  lemma {:induction false} RunAppend(s: SliderState, p: Props, xs: seq<Event>, ys: seq<Event>)
    ensures Run(s, p, xs + ys)
            == Trace(Run(Run(s, p, xs).state, p, ys).state, Run(s, p, xs).seeks + Run(Run(s, p, xs).state, p, ys).seeks)
    decreases |xs|
  {
    if xs == [] {
      assert xs + ys == ys;
    } else {
      assert (xs + ys)[0] == xs[0];
      assert (xs + ys)[1..] == xs[1..] + ys;
      RunAppend(Step(s, p, xs[0]).state, p, xs[1..], ys);
    }
  }

  /** The slider of one rendered bar. */
  class SeekSlider {
    var isDragging: bool
    var tempValue: Option<real>

    function View(): SliderState
      reads this
    {
      SliderState(isDragging, tempValue)
    }

    /** `useState(false)` and `useState<number | null>(null)` */
    constructor ()
      ensures View() == Idle
    {
      isDragging := false;
      tempValue := None;
    }

    /** `handleSliderChange`, with `parseFloat(e.target.value)` already taken. */
    method HandleSliderChange(disabled: bool, position: real)
      modifies this
      ensures View() == OnChange(old(View()), disabled, position)
    {
      if disabled {
        return;
      }
      tempValue := Some(position);
    }

    method HandleMouseDown(disabled: bool)
      modifies this
      ensures View() == OnMouseDown(old(View()), disabled)
    {
      if !disabled {
        isDragging := true;
      }
    }

    /** `handleMouseUp`; `seek` is the argument `onSeek` is called with. */
    method HandleMouseUp(hasOnSeek: bool, disabled: bool, currentTime: real) returns (seek: Option<int>)
      modifies this
      ensures Release(View(), seek) == OnMouseUp(old(View()), hasOnSeek, disabled, currentTime)
    {
      if !hasOnSeek || disabled || !isDragging {
        return None;
      }
      var finalValue := if tempValue.Some? then tempValue.value else currentTime;
      var positionMs := SeekPositionMs(finalValue);
      seek := Some(positionMs);
      tempValue := None;
      isDragging := false;
    }

    /** `handleTouchEnd`: the same as a mouse release. */
    method HandleTouchEnd(hasOnSeek: bool, disabled: bool, currentTime: real) returns (seek: Option<int>)
      modifies this
      ensures Release(View(), seek) == OnMouseUp(old(View()), hasOnSeek, disabled, currentTime)
    {
      seek := HandleMouseUp(hasOnSeek, disabled, currentTime);
    }
  }
}
