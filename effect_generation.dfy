/**
 * Automatic animation profiles: a complete settings record, with four
 * keyframes over a five-second timeline, derived from the pixel
 * statistics of the logo. The 2D profile never rotates; the 3D profile
 * picks its rotation speed from the logo's complexity and its axis from
 * the aspect ratio.
 */
module EffectGeneration {
  import opened Base
  import opened HexColor
  import opened AnimationModel
  import opened LogoImage

  /** The timeline length of every generated profile. */
  const ProfileDuration: real := 5.0

  /** `list[i]`, `undefined` past the end. */
  function At(list: seq<string>, i: nat): (r: Option<string>)
    ensures r.Some? <==> i < |list|
    ensures r.Some? ==> r.value == list[i]
  {
    if i < |list| then Some(list[i]) else None
  }

  /** `dominantColors[0] || '#ffffff'` */
  function FirstTint(colors: seq<string>): (tint: string)
    ensures |colors| > 0 && colors[0] != "" ==> tint == colors[0]
    ensures |colors| == 0 ==> tint == "#ffffff"
    ensures tint == "#ffffff" || tint in colors
  {
    if Truthy(At(colors, 0)) then colors[0] else "#ffffff"
  }

  /** `dominantColors[1] || dominantColors[0] || '#ffffff'` */
  function SecondTint(colors: seq<string>): (tint: string)
    ensures |colors| > 1 && colors[1] != "" ==> tint == colors[1]
    ensures |colors| == 1 && colors[0] != "" ==> tint == colors[0]
    ensures |colors| == 0 ==> tint == "#ffffff"
    ensures tint == "#ffffff" || tint in colors
  {
    if Truthy(At(colors, 1)) then colors[1] else FirstTint(colors)
  }

  /** Glow is on for bright, colourful logos (both profiles). */
  predicate GlowOn(a: LogoAnalysis)
  {
    a.brightness > 0.5 && a.colorfulness > 0.3
  }

  /** `Math.min(0.9, colorfulness * 1.2)` */
  function GlowLevel(a: LogoAnalysis): (g: real)
    ensures g <= 0.9
    ensures 0.0 <= a.colorfulness ==> 0.0 <= g
    ensures a.colorfulness <= 0.75 ==> g == a.colorfulness * 1.2
    ensures 0.75 < a.colorfulness ==> g == 0.9
  {
    Min(0.9, a.colorfulness * 1.2)
  }

  /** Particles are on for colourful logos (both profiles). */
  predicate ParticlesOn(a: LogoAnalysis)
  {
    a.colorfulness > 0.4
  }

  /** `brightness > 0.5 ? 0.5 : 0.2` */
  function Shadow2D(a: LogoAnalysis): (s: real)
    ensures s == 0.5 || s == 0.2
    ensures s == 0.5 <==> a.brightness > 0.5
  {
    if a.brightness > 0.5 then 0.5 else 0.2
  }

  /** `brightness > 0.5 ? 0.7 : 0.3` */
  function Shadow3D(a: LogoAnalysis): (s: real)
    ensures s == 0.7 || s == 0.3
    ensures s == 0.7 <==> a.brightness > 0.5
  {
    if a.brightness > 0.5 then 0.7 else 0.3
  }

  /** Rotation speed by complexity: simple logos spin fast, detailed ones slowly. */
  function SpeedFor(a: LogoAnalysis): (s: real)
    ensures a.complexity < 0.3 ==> s == 2.5
    ensures 0.3 <= a.complexity < 0.6 ==> s == 1.5
    ensures 0.6 <= a.complexity ==> s == 0.8
    ensures 0.8 <= s <= 2.5
  {
    if a.complexity < 0.3 then 2.5 else if a.complexity < 0.6 then 1.5 else 0.8
  }

  /** Rotation axis by aspect ratio: wide logos tilt about x, tall ones about z. */
  function AxisFor(a: LogoAnalysis): (axis: Axis)
    ensures a.aspectRatio > 1.5 ==> axis == Axis(0.3, 0.7, 0.0)
    ensures a.aspectRatio < 0.7 ==> axis == Axis(0.0, 0.7, 0.3)
    ensures 0.7 <= a.aspectRatio <= 1.5 ==> axis == Axis(0.0, 1.0, 0.0)
    ensures axis.x + axis.y + axis.z == 1.0
  {
    if a.aspectRatio > 1.5 then Axis(0.3, 0.7, 0.0)
    else if a.aspectRatio < 0.7 then Axis(0.0, 0.7, 0.3)
    else Axis(0.0, 1.0, 0.0)
  }

  const NoAxis: Axis := Axis(0.0, 0.0, 0.0)

  /** Rotation is off: speed 0, the zero axis, not enabled. */
  predicate StillPose(v: KeyframeSettings)
  {
    v.rotationSpeed == 0.0 && v.rotationAxis == NoAxis && !v.enableRotation
  }

  /** The four timestamps are strictly increasing from 0 to the duration. */
  predicate FourStepTimeline(ks: seq<Keyframe>, duration: real)
  {
    && |ks| == 4
    && ks[0].timestamp == 0.0 && ks[3].timestamp == duration
    && (forall i, j :: 0 <= i < j < |ks| ==> ks[i].timestamp < ks[j].timestamp)
  }

  /**
   * The profile `generate2DProfile` returns for a logo. It takes no
   * current settings: every field is written explicitly.
   */
  function Profile2D(a: LogoAnalysis): (r: AnimationSettings)
    ensures r.renderMode == Mode2D && r.duration == ProfileDuration
    ensures FourStepTimeline(r.keyframes, ProfileDuration)
    ensures r.keyframes[1].timestamp == 1.5 && r.keyframes[2].timestamp == 3.5
    ensures StillPose(r.visual) && forall k :: k in r.keyframes ==> StillPose(k.settings)
    ensures r.visual.glowEnabled == GlowOn(a) && r.visual.glowIntensity == GlowLevel(a)
    ensures r.visual.particleTrailEnabled == ParticlesOn(a)
    ensures r.visual.shadowIntensity == (if a.brightness > 0.5 then 0.5 else 0.2)
    ensures r.keyframes[1].settings.colorTint == FirstTint(a.dominantColors)
    ensures r.keyframes[2].settings.colorTint == SecondTint(a.dominantColors)
  {
    var glowEnabled, glowIntensity := GlowOn(a), GlowLevel(a);
    var particleTrailEnabled, shadowIntensity := ParticlesOn(a), Shadow2D(a);
    var duration := ProfileDuration;
    var keyframes := [
      Keyframe("kf-2d-auto-0", 0.0, KeyframeSettings(
        0.0, NoAxis, 0.8, false, -3.0, 0.0, 0.0, 0.0, "#ffffff", false, 0.0, false, 0.0)),
      Keyframe("kf-2d-auto-1", duration * 0.3, KeyframeSettings(
        0.0, NoAxis, 1.1, false, 0.0, 0.0, 0.0, 1.0, FirstTint(a.dominantColors),
        glowEnabled, glowIntensity, particleTrailEnabled, shadowIntensity)),
      Keyframe("kf-2d-auto-2", duration * 0.7, KeyframeSettings(
        0.0, NoAxis, 1.0, false, 0.0, 0.2, 0.0, 1.0, SecondTint(a.dominantColors),
        glowEnabled, glowIntensity * 0.8, particleTrailEnabled, shadowIntensity)),
      Keyframe("kf-2d-auto-3", duration, KeyframeSettings(
        0.0, NoAxis, 1.0, false, 0.0, 0.0, 0.0, 1.0, "#ffffff",
        glowEnabled, glowIntensity * 0.6, particleTrailEnabled, shadowIntensity))
    ];
    AnimationSettings(
      KeyframeSettings(0.0, NoAxis, 1.0, false, 0.0, 0.0, 0.0, 1.0, "#ffffff",
        glowEnabled, glowIntensity, particleTrailEnabled, shadowIntensity),
      Mode2D, keyframes, duration)
  }

  /** The four keyframes of the 3D profile. */
  function Keyframes3D(a: LogoAnalysis): seq<Keyframe>
  {
    var rotationSpeed, rotationAxis := SpeedFor(a), AxisFor(a);
    var glowEnabled, glowIntensity := GlowOn(a), GlowLevel(a);
    var particleTrailEnabled, shadowIntensity := ParticlesOn(a), Shadow3D(a);
    var duration := ProfileDuration;
    [
      Keyframe("kf-3d-auto-0", 0.0, KeyframeSettings(
        rotationSpeed * 0.5, rotationAxis, 0.5, true, 0.0, 0.0, -2.0, 0.0, "#ffffff", false, 0.0, false, 0.0)),
      Keyframe("kf-3d-auto-1", duration * 0.4, KeyframeSettings(
        rotationSpeed, rotationAxis, 1.2, true, 0.0, 0.0, 0.0, 1.0, FirstTint(a.dominantColors),
        glowEnabled, glowIntensity, particleTrailEnabled, shadowIntensity)),
      Keyframe("kf-3d-auto-2", duration * 0.7, KeyframeSettings(
        rotationSpeed * 1.5, Axis(rotationAxis.y, rotationAxis.x, rotationAxis.z), 1.0, true, 0.5, 0.0, 0.0, 1.0,
        SecondTint(a.dominantColors), glowEnabled, glowIntensity * 0.8, particleTrailEnabled, shadowIntensity)),
      Keyframe("kf-3d-auto-3", duration, KeyframeSettings(
        rotationSpeed * 0.8, rotationAxis, 1.0, true, 0.0, 0.0, 0.0, 1.0, "#ffffff",
        glowEnabled, glowIntensity * 0.6, particleTrailEnabled, shadowIntensity))
    ]
  }

  /**
   * The profile `generate3DProfile` returns for a logo. It takes no
   * current settings: every field is written explicitly.
   */
  function Profile3D(a: LogoAnalysis): (r: AnimationSettings)
    ensures r.renderMode == Mode3D && r.duration == ProfileDuration
    ensures FourStepTimeline(r.keyframes, ProfileDuration)
    ensures r.keyframes[1].timestamp == 2.0 && r.keyframes[2].timestamp == 3.5
    ensures r.visual.enableRotation && forall k :: k in r.keyframes ==> k.settings.enableRotation
    ensures r.visual.rotationSpeed == SpeedFor(a) && r.visual.rotationAxis == AxisFor(a)
    ensures r.keyframes[1].settings.rotationSpeed == SpeedFor(a)
    ensures r.keyframes[2].settings.rotationAxis == Axis(AxisFor(a).y, AxisFor(a).x, AxisFor(a).z)
    ensures r.visual.glowEnabled == GlowOn(a) && r.visual.glowIntensity == GlowLevel(a)
    ensures r.visual.particleTrailEnabled == ParticlesOn(a)
    ensures r.visual.shadowIntensity == (if a.brightness > 0.5 then 0.7 else 0.3)
    ensures r.keyframes[1].settings.colorTint == FirstTint(a.dominantColors)
    ensures r.keyframes[2].settings.colorTint == SecondTint(a.dominantColors)
  {
    var rotationSpeed, rotationAxis := SpeedFor(a), AxisFor(a);
    var glowEnabled, glowIntensity := GlowOn(a), GlowLevel(a);
    var particleTrailEnabled, shadowIntensity := ParticlesOn(a), Shadow3D(a);
    var duration := ProfileDuration;
    var keyframes := Keyframes3D(a);
    AnimationSettings(
      KeyframeSettings(rotationSpeed, rotationAxis, 1.0, true, 0.0, 0.0, 0.0, 1.0, "#ffffff",
        glowEnabled, glowIntensity, particleTrailEnabled, shadowIntensity),
      Mode3D, keyframes, duration)
  }

  /** The generated settings as `generateAnimationProfile` picks them by workflow mode. */
  function Profile(a: LogoAnalysis, mode: RenderMode): (r: AnimationSettings)
    ensures r.renderMode == mode
    ensures mode == Mode2D ==> !r.visual.enableRotation
    ensures mode == Mode3D ==> r.visual.enableRotation
  {
    if mode == Mode2D then Profile2D(a) else Profile3D(a)
  }

  /**
   * When the logo's dominant colours are `#rrggbb` colours (as the pixel
   * analysis always produces), every keyframe tint of either profile is
   * one too, so the timeline interpolator accepts the profile.
   */
  lemma ProfileTintsValid(a: LogoAnalysis, mode: RenderMode)
    requires forall c :: c in a.dominantColors ==> IsColor(c)
    ensures ValidTints(Profile(a, mode).keyframes)
    ensures IsColor(Profile(a, mode).visual.colorTint)
  {
    assert IsColor("#ffffff");
    var ks := Profile(a, mode).keyframes;
    forall k | k in ks
      ensures IsColor(k.settings.colorTint)
    {
      var i :| 0 <= i < |ks| && ks[i] == k;
    }
  }

  /**
   * The generated opacity, glow and shadow levels lie in their documented
   * 0-1 ranges whenever the logo's colourfulness is non-negative.
   */
  lemma ProfileInRanges(a: LogoAnalysis, mode: RenderMode)
    requires 0.0 <= a.colorfulness
    ensures InUnitRanges(Profile(a, mode).visual)
    ensures forall k :: k in Profile(a, mode).keyframes ==> InUnitRanges(k.settings)
  {
    var ks := Profile(a, mode).keyframes;
    var g := GlowLevel(a);
    assert 0.0 <= g * 0.8 <= g && 0.0 <= g * 0.6 <= g;
    forall k | k in ks
      ensures InUnitRanges(k.settings)
    {
      var i :| 0 <= i < |ks| && ks[i] == k;
    }
  }

  /** `generate2DProfile(analysis, currentSettings)`: four keyframe pushes, then the record. */
  method Generate2DProfile(analysis: LogoAnalysis, currentSettings: AnimationSettings) returns (r: AnimationSettings)
    ensures r == Profile2D(analysis)
  {
    var rotationSpeed := 0.0;
    var rotationAxis := Axis(0.0, 0.0, 0.0);
    var glowEnabled := analysis.brightness > 0.5 && analysis.colorfulness > 0.3;
    var glowIntensity := Min(0.9, analysis.colorfulness * 1.2);
    var particleTrailEnabled := analysis.colorfulness > 0.4;
    var shadowIntensity := if analysis.brightness > 0.5 then 0.5 else 0.2;
    var duration := 5.0;
    var keyframes: seq<Keyframe> := [];
    keyframes := keyframes + [Keyframe("kf-2d-auto-0", 0.0, KeyframeSettings(
      0.0, Axis(0.0, 0.0, 0.0), 0.8, false, -3.0, 0.0, 0.0, 0.0, "#ffffff", false, 0.0, false, 0.0))];
    keyframes := keyframes + [Keyframe("kf-2d-auto-1", duration * 0.3, KeyframeSettings(
      0.0, Axis(0.0, 0.0, 0.0), 1.1, false, 0.0, 0.0, 0.0, 1.0, FirstTint(analysis.dominantColors),
      glowEnabled, glowIntensity, particleTrailEnabled, shadowIntensity))];
    keyframes := keyframes + [Keyframe("kf-2d-auto-2", duration * 0.7, KeyframeSettings(
      0.0, Axis(0.0, 0.0, 0.0), 1.0, false, 0.0, 0.2, 0.0, 1.0, SecondTint(analysis.dominantColors),
      glowEnabled, glowIntensity * 0.8, particleTrailEnabled, shadowIntensity))];
    keyframes := keyframes + [Keyframe("kf-2d-auto-3", duration, KeyframeSettings(
      0.0, Axis(0.0, 0.0, 0.0), 1.0, false, 0.0, 0.0, 0.0, 1.0, "#ffffff",
      glowEnabled, glowIntensity * 0.6, particleTrailEnabled, shadowIntensity))];
    r := currentSettings.(
      visual := KeyframeSettings(rotationSpeed, rotationAxis, 1.0, false, 0.0, 0.0, 0.0, 1.0, "#ffffff",
        glowEnabled, glowIntensity, particleTrailEnabled, shadowIntensity),
      renderMode := Mode2D,
      keyframes := keyframes,
      duration := duration);
  }

  /** `generate3DProfile(analysis, currentSettings)`: four keyframe pushes, then the record. */
  method Generate3DProfile(analysis: LogoAnalysis, currentSettings: AnimationSettings) returns (r: AnimationSettings)
    ensures r == Profile3D(analysis)
  {
    var rotationSpeed := if analysis.complexity < 0.3 then 2.5 else if analysis.complexity < 0.6 then 1.5 else 0.8;
    var rotationAxis := Axis(0.0, 1.0, 0.0);
    if analysis.aspectRatio > 1.5 {
      rotationAxis := Axis(0.3, 0.7, 0.0);
    } else if analysis.aspectRatio < 0.7 {
      rotationAxis := Axis(0.0, 0.7, 0.3);
    }
    var glowEnabled := analysis.brightness > 0.5 && analysis.colorfulness > 0.3;
    var glowIntensity := Min(0.9, analysis.colorfulness * 1.2);
    var particleTrailEnabled := analysis.colorfulness > 0.4;
    var shadowIntensity := if analysis.brightness > 0.5 then 0.7 else 0.3;
    var duration := 5.0;
    var keyframes: seq<Keyframe> := [];
    keyframes := keyframes + [Keyframe("kf-3d-auto-0", 0.0, KeyframeSettings(
      rotationSpeed * 0.5, rotationAxis, 0.5, true, 0.0, 0.0, -2.0, 0.0, "#ffffff", false, 0.0, false, 0.0))];
    keyframes := keyframes + [Keyframe("kf-3d-auto-1", duration * 0.4, KeyframeSettings(
      rotationSpeed, rotationAxis, 1.2, true, 0.0, 0.0, 0.0, 1.0, FirstTint(analysis.dominantColors),
      glowEnabled, glowIntensity, particleTrailEnabled, shadowIntensity))];
    keyframes := keyframes + [Keyframe("kf-3d-auto-2", duration * 0.7, KeyframeSettings(
      rotationSpeed * 1.5, Axis(rotationAxis.y, rotationAxis.x, rotationAxis.z), 1.0, true, 0.5, 0.0, 0.0, 1.0,
      SecondTint(analysis.dominantColors), glowEnabled, glowIntensity * 0.8, particleTrailEnabled, shadowIntensity))];
    keyframes := keyframes + [Keyframe("kf-3d-auto-3", duration, KeyframeSettings(
      rotationSpeed * 0.8, rotationAxis, 1.0, true, 0.0, 0.0, 0.0, 1.0, "#ffffff",
      glowEnabled, glowIntensity * 0.6, particleTrailEnabled, shadowIntensity))];
    assert keyframes == Keyframes3D(analysis);
    r := currentSettings.(
      visual := KeyframeSettings(rotationSpeed, rotationAxis, 1.0, true, 0.0, 0.0, 0.0, 1.0, "#ffffff",
        glowEnabled, glowIntensity, particleTrailEnabled, shadowIntensity),
      renderMode := Mode3D,
      keyframes := keyframes,
      duration := duration);
  }

  /** `generateAnimationProfile(analysis, currentSettings, workflowMode)` */
  method GenerateAnimationProfile(analysis: LogoAnalysis, currentSettings: AnimationSettings, workflowMode: RenderMode)
    returns (r: AnimationSettings)
    ensures r == Profile(analysis, workflowMode)
  {
    if workflowMode == Mode2D {
      r := Generate2DProfile(analysis, currentSettings);
    } else {
      r := Generate3DProfile(analysis, currentSettings);
    }
  }
}
