/**
 * Effect recommendations and the patching of the settings record with
 * them.
 *
 * A recommendation's `changes` (a `Partial<AnimationSettings>`) is the
 * list of its entries in `Object.entries` order, each entry naming one
 * settings field and its new value. Applying a recommendation assigns the
 * entries one after the other into a copy of the settings; applying
 * several folds that from left to right.
 */
module Recommendations {
  import opened Base
  import opened AnimationModel

  datatype Priority = High | Medium | Low

  datatype Category = AnimationCategory | EffectsCategory | CameraCategory | SceneCategory

  /** The fields of the settings record. */
  datatype Field =
    | RotationSpeedField | RotationAxisField | ScaleField | EnableRotationField
    | PositionXField | PositionYField | PositionZField | OpacityField | ColorTintField
    | GlowEnabledField | GlowIntensityField | ParticleTrailEnabledField | ShadowIntensityField
    | RenderModeField | KeyframesField | DurationField

  /** The value held in one field. */
  datatype Value =
    | RealValue(r: real) | BoolValue(b: bool) | AxisValue(axis: Axis) | TextValue(text: string)
    | ModeValue(mode: RenderMode) | KeyframesValue(keyframes: seq<Keyframe>)

  /** One entry of `changes`: a field and its recommended value. */
  datatype Change =
    | SetRotationSpeed(rotationSpeed: real)
    | SetRotationAxis(rotationAxis: Axis)
    | SetScale(scale: real)
    | SetEnableRotation(enableRotation: bool)
    | SetPositionX(positionX: real)
    | SetPositionY(positionY: real)
    | SetPositionZ(positionZ: real)
    | SetOpacity(opacity: real)
    | SetColorTint(colorTint: string)
    | SetGlowEnabled(glowEnabled: bool)
    | SetGlowIntensity(glowIntensity: real)
    | SetParticleTrailEnabled(particleTrailEnabled: bool)
    | SetShadowIntensity(shadowIntensity: real)
    | SetRenderMode(renderMode: RenderMode)
    | SetKeyframes(keyframes: seq<Keyframe>)
    | SetDuration(duration: real)

  /** `EffectRecommendation`, without its free-text description. */
  datatype EffectRecommendation = EffectRecommendation(
    id: string, title: string, priority: Priority, category: Category, changes: seq<Change>)

  function FieldOf(c: Change): Field
  {
    match c
    case SetRotationSpeed(_) => RotationSpeedField
    case SetRotationAxis(_) => RotationAxisField
    case SetScale(_) => ScaleField
    case SetEnableRotation(_) => EnableRotationField
    case SetPositionX(_) => PositionXField
    case SetPositionY(_) => PositionYField
    case SetPositionZ(_) => PositionZField
    case SetOpacity(_) => OpacityField
    case SetColorTint(_) => ColorTintField
    case SetGlowEnabled(_) => GlowEnabledField
    case SetGlowIntensity(_) => GlowIntensityField
    case SetParticleTrailEnabled(_) => ParticleTrailEnabledField
    case SetShadowIntensity(_) => ShadowIntensityField
    case SetRenderMode(_) => RenderModeField
    case SetKeyframes(_) => KeyframesField
    case SetDuration(_) => DurationField
  }

  function ValueOf(c: Change): Value
  {
    match c
    case SetRotationSpeed(v) => RealValue(v)
    case SetRotationAxis(v) => AxisValue(v)
    case SetScale(v) => RealValue(v)
    case SetEnableRotation(v) => BoolValue(v)
    case SetPositionX(v) => RealValue(v)
    case SetPositionY(v) => RealValue(v)
    case SetPositionZ(v) => RealValue(v)
    case SetOpacity(v) => RealValue(v)
    case SetColorTint(v) => TextValue(v)
    case SetGlowEnabled(v) => BoolValue(v)
    case SetGlowIntensity(v) => RealValue(v)
    case SetParticleTrailEnabled(v) => BoolValue(v)
    case SetShadowIntensity(v) => RealValue(v)
    case SetRenderMode(v) => ModeValue(v)
    case SetKeyframes(v) => KeyframesValue(v)
    case SetDuration(v) => RealValue(v)
  }

  /** The value of field `f` of a settings record. */
  function Read(s: AnimationSettings, f: Field): Value
  {
    match f
    case RotationSpeedField => RealValue(s.visual.rotationSpeed)
    case RotationAxisField => AxisValue(s.visual.rotationAxis)
    case ScaleField => RealValue(s.visual.scale)
    case EnableRotationField => BoolValue(s.visual.enableRotation)
    case PositionXField => RealValue(s.visual.positionX)
    case PositionYField => RealValue(s.visual.positionY)
    case PositionZField => RealValue(s.visual.positionZ)
    case OpacityField => RealValue(s.visual.opacity)
    case ColorTintField => TextValue(s.visual.colorTint)
    case GlowEnabledField => BoolValue(s.visual.glowEnabled)
    case GlowIntensityField => RealValue(s.visual.glowIntensity)
    case ParticleTrailEnabledField => BoolValue(s.visual.particleTrailEnabled)
    case ShadowIntensityField => RealValue(s.visual.shadowIntensity)
    case RenderModeField => ModeValue(s.renderMode)
    case KeyframesField => KeyframesValue(s.keyframes)
    case DurationField => RealValue(s.duration)
  }

  /** Two settings records with the same value in every field are equal. */
  lemma FieldsDetermineSettings(s1: AnimationSettings, s2: AnimationSettings)
    requires forall f :: Read(s1, f) == Read(s2, f)
    ensures s1 == s2
  {
    assert Read(s1, RotationSpeedField) == Read(s2, RotationSpeedField);
    assert Read(s1, RotationAxisField) == Read(s2, RotationAxisField);
    assert Read(s1, ScaleField) == Read(s2, ScaleField);
    assert Read(s1, EnableRotationField) == Read(s2, EnableRotationField);
    assert Read(s1, PositionXField) == Read(s2, PositionXField);
    assert Read(s1, PositionYField) == Read(s2, PositionYField);
    assert Read(s1, PositionZField) == Read(s2, PositionZField);
    assert Read(s1, OpacityField) == Read(s2, OpacityField);
    assert Read(s1, ColorTintField) == Read(s2, ColorTintField);
    assert Read(s1, GlowEnabledField) == Read(s2, GlowEnabledField);
    assert Read(s1, GlowIntensityField) == Read(s2, GlowIntensityField);
    assert Read(s1, ParticleTrailEnabledField) == Read(s2, ParticleTrailEnabledField);
    assert Read(s1, ShadowIntensityField) == Read(s2, ShadowIntensityField);
    assert Read(s1, RenderModeField) == Read(s2, RenderModeField);
    assert Read(s1, KeyframesField) == Read(s2, KeyframesField);
    assert Read(s1, DurationField) == Read(s2, DurationField);
  }

  /** `newSettings[key] = value` for one entry. */
  function ApplyChange(s: AnimationSettings, c: Change): (r: AnimationSettings)
    ensures Read(r, FieldOf(c)) == ValueOf(c)
    ensures forall f :: f != FieldOf(c) ==> Read(r, f) == Read(s, f)
  {
    match c
    case SetRotationSpeed(v) => s.(visual := s.visual.(rotationSpeed := v))
    case SetRotationAxis(v) => s.(visual := s.visual.(rotationAxis := v))
    case SetScale(v) => s.(visual := s.visual.(scale := v))
    case SetEnableRotation(v) => s.(visual := s.visual.(enableRotation := v))
    case SetPositionX(v) => s.(visual := s.visual.(positionX := v))
    case SetPositionY(v) => s.(visual := s.visual.(positionY := v))
    case SetPositionZ(v) => s.(visual := s.visual.(positionZ := v))
    case SetOpacity(v) => s.(visual := s.visual.(opacity := v))
    case SetColorTint(v) => s.(visual := s.visual.(colorTint := v))
    case SetGlowEnabled(v) => s.(visual := s.visual.(glowEnabled := v))
    case SetGlowIntensity(v) => s.(visual := s.visual.(glowIntensity := v))
    case SetParticleTrailEnabled(v) => s.(visual := s.visual.(particleTrailEnabled := v))
    case SetShadowIntensity(v) => s.(visual := s.visual.(shadowIntensity := v))
    case SetRenderMode(v) => s.(renderMode := v)
    case SetKeyframes(v) => s.(keyframes := v)
    case SetDuration(v) => s.(duration := v)
  }

  /** The entries applied in order. */
  function ApplyChanges(s: AnimationSettings, cs: seq<Change>): AnimationSettings
    decreases |cs|
  {
    if cs == [] then s else ApplyChanges(ApplyChange(s, cs[0]), cs[1..])
  }

  /** The last entry of `cs` for field `f`, if there is one. */
  function LastFor(cs: seq<Change>, f: Field): (r: Option<Change>)
    ensures r.Some? ==> r.value in cs && FieldOf(r.value) == f
    ensures r.None? <==> forall c :: c in cs ==> FieldOf(c) != f
    decreases |cs|
  {
    if cs == [] then None
    else if FieldOf(cs[|cs| - 1]) == f then Some(cs[|cs| - 1])
    else
      var rest := LastFor(cs[..|cs| - 1], f);
      assert forall c :: c in cs ==> c in cs[..|cs| - 1] || c == cs[|cs| - 1];
      rest
  }

  lemma {:induction false} ApplyChangesSnoc(s: AnimationSettings, cs: seq<Change>, c: Change)
    ensures ApplyChanges(s, cs + [c]) == ApplyChange(ApplyChanges(s, cs), c)
    decreases |cs|
  {
    if cs == [] {
      assert ([] + [c])[1..] == [];
    } else {
      assert (cs + [c])[0] == cs[0] && (cs + [c])[1..] == cs[1..] + [c];
      ApplyChangesSnoc(ApplyChange(s, cs[0]), cs[1..], c);
    }
  }

  /**
   * Each field of the patched settings holds the value of the last entry
   * for it, and fields without an entry keep their value.
   */
  lemma {:induction false} ApplyChangesReads(s: AnimationSettings, cs: seq<Change>, f: Field)
    ensures var last := LastFor(cs, f);
      Read(ApplyChanges(s, cs), f) == if last.Some? then ValueOf(last.value) else Read(s, f)
    decreases |cs|
  {
    if cs != [] {
      var init, c := cs[..|cs| - 1], cs[|cs| - 1];
      assert cs == init + [c];
      ApplyChangesSnoc(s, init, c);
      ApplyChangesReads(s, init, f);
    }
  }

  /** Patching twice with the same entries is patching once. */
  lemma ApplyChangesIdempotent(s: AnimationSettings, cs: seq<Change>)
    ensures ApplyChanges(ApplyChanges(s, cs), cs) == ApplyChanges(s, cs)
  {
    var once := ApplyChanges(s, cs);
    forall f
      ensures Read(ApplyChanges(once, cs), f) == Read(once, f)
    {
      ApplyChangesReads(once, cs, f);
      ApplyChangesReads(s, cs, f);
    }
    FieldsDetermineSettings(ApplyChanges(once, cs), once);
  }

  /** Patching with `a` and then `b` is patching with `a + b`. */
  lemma {:induction false} ApplyChangesAppend(s: AnimationSettings, a: seq<Change>, b: seq<Change>)
    ensures ApplyChanges(ApplyChanges(s, a), b) == ApplyChanges(s, a + b)
    decreases |a|
  {
    if a != [] {
      assert (a + b)[0] == a[0] && (a + b)[1..] == a[1..] + b;
      ApplyChangesAppend(ApplyChange(s, a[0]), a[1..], b);
    } else {
      assert a + b == b;
    }
  }

  /** `applyRecommendation(currentSettings, recommendation)` */
  method ApplyRecommendation(currentSettings: AnimationSettings, recommendation: EffectRecommendation)
    returns (newSettings: AnimationSettings)
    ensures newSettings == ApplyChanges(currentSettings, recommendation.changes)
  {
    newSettings := currentSettings;
    var entries := recommendation.changes;
    var i := 0;
    while i < |entries|
      invariant 0 <= i <= |entries|
      invariant newSettings == ApplyChanges(currentSettings, entries[..i])
    {
      ApplyChangesSnoc(currentSettings, entries[..i], entries[i]);
      assert entries[..i + 1] == entries[..i] + [entries[i]];
      newSettings := ApplyChange(newSettings, entries[i]);
      i := i + 1;
    }
    assert entries[..i] == entries;
  }

  /** All entries of a list of recommendations, in order. */
  function AllChanges(recs: seq<EffectRecommendation>): (cs: seq<Change>)
    ensures recs == [] ==> cs == []
    decreases |recs|
  {
    if recs == [] then [] else AllChanges(recs[..|recs| - 1]) + recs[|recs| - 1].changes
  }

  /** `applyMultipleRecommendations(currentSettings, recommendations)` */
  method ApplyMultipleRecommendations(currentSettings: AnimationSettings, recommendations: seq<EffectRecommendation>)
    returns (newSettings: AnimationSettings)
    ensures newSettings == ApplyChanges(currentSettings, AllChanges(recommendations))
  {
    newSettings := currentSettings;
    var i := 0;
    while i < |recommendations|
      invariant 0 <= i <= |recommendations|
      invariant newSettings == ApplyChanges(currentSettings, AllChanges(recommendations[..i]))
    {
      var rec := recommendations[i];
      newSettings := ApplyRecommendation(newSettings, rec);
      assert recommendations[..i + 1][..i] == recommendations[..i];
      ApplyChangesAppend(currentSettings, AllChanges(recommendations[..i]), rec.changes);
      i := i + 1;
    }
    assert recommendations[..i] == recommendations;
  }

  /** With no entries, or no recommendations, the settings come back equal. */
  lemma NoChangesIsIdentity(s: AnimationSettings)
    ensures ApplyChanges(s, []) == s
    ensures ApplyChanges(s, AllChanges([])) == s
  {
  }

  /**
   * When two recommendations set the same field, the later one wins: the
   * field holds the later recommendation's last entry for it.
   */
  lemma LaterRecommendationWins(s: AnimationSettings, first: EffectRecommendation, second: EffectRecommendation, f: Field)
    requires LastFor(second.changes, f).Some?
    ensures Read(ApplyChanges(s, AllChanges([first, second])), f) == ValueOf(LastFor(second.changes, f).value)
  {
    assert [first, second][..1] == [first];
    assert AllChanges([first]) == first.changes by {
      assert [first][..0] == [];
    }
    ApplyChangesAppend(s, first.changes, second.changes);
    ApplyChangesReads(ApplyChanges(s, first.changes), second.changes, f);
  }
}
