/**
 * The settings record of the logo animation and its keyframes.
 *
 * A keyframe's `settings` carries every field of the settings record except
 * the three timeline fields (`keyframes`, `duration`, `renderMode`). The
 * model names that shared part `KeyframeSettings` and keeps it as the
 * `visual` part of `AnimationSettings`, so overlaying a keyframe on the
 * settings (`{ ...settings, ...keyframe.settings }`) replaces exactly
 * `visual`.
 */
module AnimationModel {
  import opened HexColor

  datatype Axis = Axis(x: real, y: real, z: real)

  /** `'2D' | '3D'`: the settings' render mode and the editor's workflow mode. */
  datatype RenderMode = Mode2D | Mode3D

  /** Every animation parameter a keyframe records. */
  datatype KeyframeSettings = KeyframeSettings(
    rotationSpeed: real,
    rotationAxis: Axis,
    scale: real,
    enableRotation: bool,
    positionX: real,
    positionY: real,
    positionZ: real,
    opacity: real,
    colorTint: string,
    glowEnabled: bool,
    glowIntensity: real,
    particleTrailEnabled: bool,
    shadowIntensity: real)

  datatype Keyframe = Keyframe(id: string, timestamp: real, settings: KeyframeSettings)

  datatype AnimationSettings = AnimationSettings(
    visual: KeyframeSettings,
    renderMode: RenderMode,
    keyframes: seq<Keyframe>,
    duration: real)

  /** The sort key of animation keyframes. */
  function Timestamp(k: Keyframe): real
  {
    k.timestamp
  }

  /** Every keyframe's tint is a well-formed `#rrggbb` colour. */
  predicate ValidTints(ks: seq<Keyframe>)
  {
    forall k :: k in ks ==> IsColor(k.settings.colorTint)
  }

  /** The documented 0-1 ranges of opacity, glow intensity and shadow intensity. */
  predicate InUnitRanges(v: KeyframeSettings)
  {
    0.0 <= v.opacity <= 1.0 && 0.0 <= v.glowIntensity <= 1.0 && 0.0 <= v.shadowIntensity <= 1.0
  }

  /** `defaultAnimationSettings` */
  function DefaultAnimationSettings(): (s: AnimationSettings)
    ensures s.keyframes == [] && s.duration == 5.0 && s.renderMode == Mode3D
    ensures InUnitRanges(s.visual) && s.visual.opacity == 1.0
    ensures s.visual.enableRotation && s.visual.rotationSpeed == 1.0
    ensures s.visual.rotationAxis == Axis(0.0, 1.0, 0.0) && s.visual.scale == 1.0
    ensures s.visual.positionX == 0.0 && s.visual.positionY == 0.0 && s.visual.positionZ == 0.0
    ensures IsColor(s.visual.colorTint) && s.visual.colorTint == "#ffffff"
    ensures s.visual.glowIntensity == 0.5 && s.visual.shadowIntensity == 0.5
    ensures !s.visual.glowEnabled && !s.visual.particleTrailEnabled
  {
    AnimationSettings(
      KeyframeSettings(
        rotationSpeed := 1.0,
        rotationAxis := Axis(0.0, 1.0, 0.0),
        scale := 1.0,
        enableRotation := true,
        positionX := 0.0,
        positionY := 0.0,
        positionZ := 0.0,
        opacity := 1.0,
        colorTint := "#ffffff",
        glowEnabled := false,
        glowIntensity := 0.5,
        particleTrailEnabled := false,
        shadowIntensity := 0.5),
      Mode3D,
      [],
      5.0)
  }
}
