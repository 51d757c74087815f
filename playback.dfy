/**
 * The timeline playback clock: a playing flag and a playhead time in
 * seconds, moved by play, pause, seek, reset and the per-frame advance.
 *
 * The frame callback's elapsed time (`(timestamp - lastTime) / 1000`) is
 * the `delta` parameter of `Tick`; the animation-frame scheduling around
 * it is not modelled.
 */
module TimelinePlayback {
  import opened Base
  import opened AnimationModel
  import opened Interpolation

  /** The clock state: `isPlaying` and `currentTime`. */
  datatype Clock = Clock(isPlaying: bool, currentTime: real)

  /** A user or frame event that moves the clock. */
  datatype ClockEvent = PlayEvent | PauseEvent | SeekEvent(time: real) | ResetEvent | TickEvent(delta: real)

  /** `Math.max(0, Math.min(time, duration))` */
  function SeekTime(time: real, duration: real): (t: real)
    ensures 0.0 <= duration ==> 0.0 <= t <= duration
    ensures 0.0 <= time <= duration ==> t == time
    ensures time > duration && duration >= 0.0 ==> t == duration
    ensures time < 0.0 ==> t == 0.0
  {
    Max(0.0, Min(time, duration))
  }

  /** One frame of playback: advance by `delta`, stopping at the end. */
  function Advance(c: Clock, delta: real, duration: real): (r: Clock)
    ensures !c.isPlaying ==> r == c
    ensures c.isPlaying && c.currentTime + delta >= duration ==> r == Clock(false, duration)
    ensures c.isPlaying && c.currentTime + delta < duration ==> r == Clock(true, c.currentTime + delta)
  {
    if !c.isPlaying then c
    else if c.currentTime + delta >= duration then Clock(false, duration)
    else Clock(true, c.currentTime + delta)
  }

  /** The clock after one event. */
  function Step(c: Clock, e: ClockEvent, duration: real): Clock
  {
    match e
    case PlayEvent => c.(isPlaying := true)
    case PauseEvent => c.(isPlaying := false)
    case SeekEvent(time) => c.(currentTime := SeekTime(time, duration))
    case ResetEvent => Clock(false, 0.0)
    case TickEvent(delta) => Advance(c, delta, duration)
  }

  /** The clock after a sequence of events, in order. */
  function Run(c: Clock, events: seq<ClockEvent>, duration: real): Clock
    decreases |events|
  {
    if events == [] then c else Run(Step(c, events[0], duration), events[1..], duration)
  }

  ghost predicate InRange(c: Clock, duration: real)
  {
    0.0 <= c.currentTime <= duration
  }

  /** Every event keeps the playhead in [0, duration] when frame deltas are non-negative. */
  lemma StepInRange(c: Clock, e: ClockEvent, duration: real)
    requires InRange(c, duration)
    requires e.TickEvent? ==> e.delta >= 0.0
    ensures InRange(Step(c, e, duration), duration)
  {
  }

  /** Invariant: whatever the events, the playhead stays in [0, duration] as long as no frame delta is negative. */
  lemma {:induction false} RunInRange(c: Clock, events: seq<ClockEvent>, duration: real)
    requires InRange(c, duration)
    requires forall i :: 0 <= i < |events| && events[i].TickEvent? ==> events[i].delta >= 0.0
    ensures InRange(Run(c, events, duration), duration)
    decreases |events|
  {
    if events != [] {
      StepInRange(c, events[0], duration);
      RunInRange(Step(c, events[0], duration), events[1..], duration);
    }
  }

  /** Once playback has stopped, frames do not move the clock. */
  lemma {:induction false} PausedTicksDoNothing(c: Clock, deltas: seq<real>, duration: real)
    requires !c.isPlaying
    ensures Run(c, seq(|deltas|, i requires 0 <= i < |deltas| => TickEvent(deltas[i])), duration) == c
    decreases |deltas|
  {
    var events := seq(|deltas|, i requires 0 <= i < |deltas| => TickEvent(deltas[i]));
    if deltas != [] {
      assert events[1..] == seq(|deltas[1..]|, i requires 0 <= i < |deltas[1..]| => TickEvent(deltas[1..][i]));
      PausedTicksDoNothing(c, deltas[1..], duration);
    }
  }

  /** The playback state of the editor (`useTimelinePlayback`). */
  class Playback {
    var isPlaying: bool
    var currentTime: real
    var settings: AnimationSettings

    ghost predicate Valid()
      reads this
    {
      && ValidTints(settings.keyframes)
      && 0.0 <= settings.duration
      && 0.0 <= currentTime <= settings.duration
    }

    function State(): Clock
      reads this
    {
      Clock(isPlaying, currentTime)
    }

    constructor(settings: AnimationSettings)
      requires ValidTints(settings.keyframes) && 0.0 <= settings.duration
      ensures Valid()
      ensures !isPlaying && currentTime == 0.0 && this.settings == settings
    {
      isPlaying := false;
      currentTime := 0.0;
      this.settings := settings;
    }

    /** `play` */
    method Play()
      modifies this
      requires Valid()
      ensures Valid()
      ensures State() == Step(old(State()), PlayEvent, settings.duration)
      ensures isPlaying && currentTime == old(currentTime) && settings == old(settings)
    {
      isPlaying := true;
    }

    /** `pause` */
    method Pause()
      modifies this
      requires Valid()
      ensures Valid()
      ensures State() == Step(old(State()), PauseEvent, settings.duration)
      ensures !isPlaying && currentTime == old(currentTime) && settings == old(settings)
    {
      isPlaying := false;
    }

    /** `seek(time)` */
    method Seek(time: real)
      modifies this
      requires Valid()
      ensures Valid()
      ensures State() == Step(old(State()), SeekEvent(time), settings.duration)
      ensures currentTime == Max(0.0, Min(time, settings.duration))
      ensures isPlaying == old(isPlaying) && settings == old(settings)
    {
      currentTime := Max(0.0, Min(time, settings.duration));
    }

    /** `reset` */
    method Reset()
      modifies this
      requires Valid()
      ensures Valid()
      ensures State() == Step(old(State()), ResetEvent, settings.duration)
      ensures currentTime == 0.0 && !isPlaying && settings == old(settings)
    {
      currentTime := 0.0;
      isPlaying := false;
    }

    /** One animation frame, `delta` seconds after the previous one. */
    method Tick(delta: real)
      modifies this
      requires Valid()
      ensures delta >= 0.0 ==> Valid()
      ensures State() == Step(old(State()), TickEvent(delta), settings.duration)
      ensures settings == old(settings)
    {
      if !isPlaying {
        return;
      }
      var newTime := currentTime + delta;
      if newTime >= settings.duration {
        isPlaying := false;
        currentTime := settings.duration;
      } else {
        currentTime := newTime;
      }
    }

    /**
     * A new settings record from the caller. The playhead is not clamped,
     * so the range invariant survives only if the new duration still
     * covers the current time.
     */
    method ChangeSettings(s: AnimationSettings)
      modifies this
      requires Valid()
      ensures settings == s && State() == old(State())
      ensures Valid() <==> ValidTints(s.keyframes) && 0.0 <= old(currentTime) <= s.duration
    {
      settings := s;
    }

    /** `interpolatedSettings`: the timeline's parameters at the playhead. */
    method InterpolatedSettings() returns (r: AnimationSettings)
      requires Valid()
      ensures r == Interpolate(settings, currentTime)
    {
      r := InterpolateSettings(settings, currentTime);
    }
  }
}
