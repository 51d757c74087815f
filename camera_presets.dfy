/**
 * Ready-made camera paths around the logo: an orbit, a dolly zoom, a
 * fly-through and a tracking shot, each a list of camera poses (camera
 * keyframes without ids) from time 0 to the animation's duration.
 *
 * The orbit places the camera on a circle with `Math.cos` and `Math.sin`;
 * those are passed in as the functions `cos` and `sin`.
 */
module CameraPresets {
  import opened Base
  import opened CameraInterpolation
  import opened CameraAnimation

  datatype Direction = Clockwise | Counterclockwise

  /** `PresetOptions`; an absent option takes its default. `speed` is accepted and never read. */
  datatype PresetOptions = PresetOptions(
    duration: real,
    radius: Option<real>,
    speed: Option<real>,
    direction: Option<Direction>,
    logoPosition: Option<Vec3>)

  function RadiusOf(o: PresetOptions): real
  {
    if o.radius.Some? then o.radius.value else 5.0
  }

  function DirectionOf(o: PresetOptions): Direction
  {
    if o.direction.Some? then o.direction.value else Clockwise
  }

  function LogoOf(o: PresetOptions): Vec3
  {
    if o.logoPosition.Some? then o.logoPosition.value else Vec3(0.0, 0.0, 0.0)
  }

  /** `numKeyframes`: the orbit has this many segments and one more keyframe. */
  const OrbitSegments: nat := 8

  /** The angle of orbit keyframe i: `t * Math.PI * 2 * angleMultiplier` with t = i / 8. */
  function OrbitAngle(i: nat, direction: Direction): real
  {
    (i as real) / (OrbitSegments as real) * Pi * 2.0 * (if direction == Clockwise then 1.0 else -1.0)
  }

  /** Orbit keyframe i: on the circle of the given radius about the logo, at the logo's height. */
  function OrbitPose(o: PresetOptions, i: nat, cos: real -> real, sin: real -> real): CameraPose
  {
    var angle := OrbitAngle(i, DirectionOf(o));
    var logo := LogoOf(o);
    CameraPose(
      (i as real) / (OrbitSegments as real) * o.duration,
      Vec3(logo.x + cos(angle) * RadiusOf(o), logo.y, logo.z + sin(angle) * RadiusOf(o)),
      Vec3(0.0, -angle, 0.0),
      50.0)
  }

  /** The orbit keyframes for i = 0, ..., 8. */
  function OrbitPreset(o: PresetOptions, cos: real -> real, sin: real -> real): (ps: seq<CameraPose>)
    ensures |ps| == OrbitSegments + 1
    ensures forall i :: 0 <= i < |ps| ==> ps[i] == OrbitPose(o, i, cos, sin)
  {
    seq(OrbitSegments + 1, i requires 0 <= i => OrbitPose(o, i, cos, sin))
  }

  /** `generateOrbitPreset(options)`: the `for (i = 0; i <= numKeyframes; i++)` loop pushing one pose per step. */
  method GenerateOrbitPreset(options: PresetOptions, cos: real -> real, sin: real -> real)
    returns (keyframes: seq<CameraPose>)
    ensures keyframes == OrbitPreset(options, cos, sin)
  {
    keyframes := [];
    var radius, direction, logoPosition := RadiusOf(options), DirectionOf(options), LogoOf(options);
    var angleMultiplier := if direction == Clockwise then 1.0 else -1.0;
    var i := 0;
    while i <= OrbitSegments
      invariant 0 <= i <= OrbitSegments + 1
      invariant |keyframes| == i
      invariant forall j :: 0 <= j < i ==> keyframes[j] == OrbitPose(options, j, cos, sin)
    {
      var t := (i as real) / (OrbitSegments as real);
      var time := t * options.duration;
      var angle := t * Pi * 2.0 * angleMultiplier;
      keyframes := keyframes + [CameraPose(
        time,
        Vec3(logoPosition.x + cos(angle) * radius, logoPosition.y, logoPosition.z + sin(angle) * radius),
        Vec3(0.0, -angle, 0.0),
        50.0)];
      i := i + 1;
    }
  }

  /** `generateDollyZoomPreset(options)`: the camera moves in from 8 to 3 units in front of the logo while the field of view widens from 35 to 70. */
  function DollyZoomPreset(o: PresetOptions): (ps: seq<CameraPose>)
    ensures |ps| == 3
  {
    var logo := LogoOf(o);
    var startDistance, endDistance, startFOV, endFOV := 8.0, 3.0, 35.0, 70.0;
    [CameraPose(0.0, Vec3(logo.x, logo.y, logo.z + startDistance), Vec3(0.0, 0.0, 0.0), startFOV),
     CameraPose(o.duration / 2.0, Vec3(logo.x, logo.y, logo.z + (startDistance + endDistance) / 2.0),
       Vec3(0.0, 0.0, 0.0), (startFOV + endFOV) / 2.0),
     CameraPose(o.duration, Vec3(logo.x, logo.y, logo.z + endDistance), Vec3(0.0, 0.0, 0.0), endFOV)]
  }

  /** `generateFlyThroughPreset(options)`: from a fixed start past both sides of the logo to a fixed end. */
  function FlyThroughPreset(o: PresetOptions): (ps: seq<CameraPose>)
    ensures |ps| == 4
  {
    var logo := LogoOf(o);
    [CameraPose(0.0, Vec3(-5.0, 2.0, 8.0), Vec3(-0.2, -0.5, 0.0), 50.0),
     CameraPose(o.duration * 0.3, Vec3(logo.x - 2.0, logo.y + 1.0, logo.z + 3.0), Vec3(-0.1, -0.3, 0.0), 50.0),
     CameraPose(o.duration * 0.7, Vec3(logo.x + 2.0, logo.y - 1.0, logo.z + 3.0), Vec3(0.1, 0.3, 0.0), 50.0),
     CameraPose(o.duration, Vec3(5.0, -2.0, 8.0), Vec3(0.2, 0.5, 0.0), 50.0)]
  }

  /** `generateTrackingShotPreset(options)`: at offset (3, 1, 3) from the logo, rising by one unit halfway. */
  function TrackingShotPreset(o: PresetOptions): (ps: seq<CameraPose>)
    ensures |ps| == 3
  {
    var logo := LogoOf(o);
    var offset := Vec3(3.0, 1.0, 3.0);
    [CameraPose(0.0, Vec3(logo.x + offset.x, logo.y + offset.y, logo.z + offset.z), Vec3(-0.2, -0.6, 0.0), 50.0),
     CameraPose(o.duration / 2.0, Vec3(logo.x + offset.x, logo.y + offset.y + 1.0, logo.z + offset.z),
       Vec3(-0.3, -0.6, 0.0), 50.0),
     CameraPose(o.duration, Vec3(logo.x + offset.x, logo.y + offset.y, logo.z + offset.z), Vec3(-0.2, -0.6, 0.0), 50.0)]
  }

  /** A preset path runs from time 0 to the duration, and its times never decrease when the duration is not negative. */
  ghost predicate SpansDuration(ps: seq<CameraPose>, duration: real)
  {
    && |ps| >= 2 && ps[0].time == 0.0 && ps[|ps| - 1].time == duration
    && (0.0 <= duration ==> forall i, j :: 0 <= i < j < |ps| ==> ps[i].time <= ps[j].time)
  }

  /**
   * The orbit has 9 keyframes at times i/8 of the duration, all with fov 50,
   * at the logo's height, looking along the negated angle; the
   * counterclockwise orbit turns by the opposite angle.
   */
  lemma OrbitShape(o: PresetOptions, cos: real -> real, sin: real -> real)
    ensures var ps := OrbitPreset(o, cos, sin);
      && |ps| == 9
      && (forall i :: 0 <= i < 9 ==> ps[i].time == (i as real) / 8.0 * o.duration)
      && (forall i :: 0 <= i < 9 ==> ps[i].fov == 50.0 && ps[i].position.y == LogoOf(o).y)
      && (forall i :: 0 <= i < 9 ==> ps[i].rotation == Vec3(0.0, -OrbitAngle(i, DirectionOf(o)), 0.0))
    ensures forall i: nat :: OrbitAngle(i, Counterclockwise) == -OrbitAngle(i, Clockwise)
    ensures OrbitAngle(0, Clockwise) == 0.0 && OrbitAngle(8, Clockwise) == 2.0 * Pi
  {
  }

  /** The orbit path spans the duration. */
  lemma OrbitSpans(o: PresetOptions, cos: real -> real, sin: real -> real)
    ensures SpansDuration(OrbitPreset(o, cos, sin), o.duration)
  {
    var ps := OrbitPreset(o, cos, sin);
    if 0.0 <= o.duration {
      forall i, j | 0 <= i < j < |ps|
        ensures ps[i].time <= ps[j].time
      {
        OrbitTimesOrdered(o, cos, sin, i, j);
      }
    }
  }

  /** A later orbit keyframe is not earlier in time. */
  lemma OrbitTimesOrdered(o: PresetOptions, cos: real -> real, sin: real -> real, i: nat, j: nat)
    requires i < j <= OrbitSegments && 0.0 <= o.duration
    ensures OrbitPreset(o, cos, sin)[i].time <= OrbitPreset(o, cos, sin)[j].time
  {
    var a, b := (i as real) / 8.0, (j as real) / 8.0;
    assert OrbitPreset(o, cos, sin)[i].time == a * o.duration;
    assert OrbitPreset(o, cos, sin)[j].time == b * o.duration;
    MulMonotone(a, b, o.duration);
  }

  /** Multiplying by a non-negative factor keeps an order. */
  lemma MulMonotone(a: real, b: real, c: real)
    requires a <= b && 0.0 <= c
    ensures a * c <= b * c
  {
    assert (b - a) * c >= 0.0;
  }

  /** The dolly zoom sits at 8, 5.5 and 3 units in front of the logo with fov 35, 52.5 and 70, at times 0, d/2 and d. */
  lemma DollyZoomShape(o: PresetOptions)
    ensures var ps, logo := DollyZoomPreset(o), LogoOf(o);
      && ps[0].position == Vec3(logo.x, logo.y, logo.z + 8.0) && ps[0].fov == 35.0
      && ps[1].position == Vec3(logo.x, logo.y, logo.z + 5.5) && ps[1].fov == 52.5
      && ps[2].position == Vec3(logo.x, logo.y, logo.z + 3.0) && ps[2].fov == 70.0
      && ps[1].time == o.duration / 2.0
      && SpansDuration(ps, o.duration)
  {
  }

  /**
   * The fly-through's first and last positions are fixed, whatever the logo
   * position; its times are 0, 0.3d, 0.7d and d, and every fov is 50.
   */
  lemma FlyThroughShape(o: PresetOptions, other: PresetOptions)
    requires other.duration == o.duration
    ensures var ps, qs := FlyThroughPreset(o), FlyThroughPreset(other);
      && ps[0] == qs[0] && ps[3] == qs[3]
      && ps[0].position == Vec3(-5.0, 2.0, 8.0) && ps[3].position == Vec3(5.0, -2.0, 8.0)
      && ps[1].time == 0.3 * o.duration && ps[2].time == 0.7 * o.duration
      && (forall i :: 0 <= i < 4 ==> ps[i].fov == 50.0)
      && SpansDuration(ps, o.duration)
  {
  }

  /** The tracking shot ends where it started, having risen by one unit and pitched down to -0.3 halfway. */
  lemma TrackingShotShape(o: PresetOptions)
    ensures var ps := TrackingShotPreset(o);
      && ps[0].(time := 0.0) == ps[2].(time := 0.0)
      && ps[1].position == ps[0].position.(y := ps[0].position.y + 1.0)
      && ps[1].rotation.x == -0.3 && ps[1].rotation.y == ps[0].rotation.y
      && SpansDuration(ps, o.duration)
  {
  }

  /** No preset reads the `speed` option. */
  lemma PresetsIgnoreSpeed(o: PresetOptions, speed: Option<real>, cos: real -> real, sin: real -> real)
    ensures OrbitPreset(o.(speed := speed), cos, sin) == OrbitPreset(o, cos, sin)
    ensures DollyZoomPreset(o.(speed := speed)) == DollyZoomPreset(o)
    ensures FlyThroughPreset(o.(speed := speed)) == FlyThroughPreset(o)
    ensures TrackingShotPreset(o.(speed := speed)) == TrackingShotPreset(o)
  {
    var o' := o.(speed := speed);
    assert forall i: nat :: OrbitPose(o', i, cos, sin) == OrbitPose(o, i, cos, sin);
  }
}
