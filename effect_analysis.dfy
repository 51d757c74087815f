/**
 * Rule-based effect recommendations. Each analyser walks a fixed list of
 * rules in order; a rule whose condition holds on the current settings
 * (and, for the colour rules, on the logo analysis; for the scene rule,
 * on the scene elements) pushes one recommendation. The 2D analyser has
 * no rotation rules.
 *
 * The model names each rule, gives its condition (`Fires`) and the
 * recommendation it pushes (`Build`), and specifies an analyser by
 * `Fired`: the recommendations of the firing rules, in rule order.
 */
module EffectAnalysis {
  import opened Base
  import opened AnimationModel
  import opened Recommendations
  import opened LogoImage
  import opened SceneElements

  /** The rules of both analysers. */
  datatype Rule =
    | AddMovement2D | AddScaleAnimation | EnableGlow2D | EnableParticles2D | AddFade2D
    | EnableRotationRule | IncreaseRotationSpeed | MultiAxisRotation | AddDepthMovement
    | EnableGlow3D | EnableParticles3D | IncreaseShadows | AddSceneElements

  /** What the rules look at. */
  datatype Context = Context(settings: AnimationSettings, logo: Option<LogoAnalysis>, sceneElements: seq<SceneElement>)

  /** The rules of `analyze2DEffects`, in order. */
  const Rules2D: seq<Rule> := [AddMovement2D, AddScaleAnimation, EnableGlow2D, EnableParticles2D, AddFade2D]

  /** The rules of `analyze3DEffects`, in order. */
  const Rules3D: seq<Rule> :=
    [EnableRotationRule, IncreaseRotationSpeed, MultiAxisRotation, AddDepthMovement,
     EnableGlow3D, EnableParticles3D, IncreaseShadows, AddSceneElements]

  function RuleId(rule: Rule): string
  {
    match rule
    case AddMovement2D => "add-movement-2d"
    case AddScaleAnimation => "add-scale-animation"
    case EnableGlow2D => "enable-glow-2d"
    case EnableParticles2D => "enable-particles-2d"
    case AddFade2D => "add-fade-2d"
    case EnableRotationRule => "enable-rotation"
    case IncreaseRotationSpeed => "increase-rotation-speed"
    case MultiAxisRotation => "multi-axis-rotation"
    case AddDepthMovement => "add-depth-movement"
    case EnableGlow3D => "enable-glow"
    case EnableParticles3D => "enable-particles"
    case IncreaseShadows => "increase-shadows"
    case AddSceneElements => "add-scene-elements"
  }

  /** Different rules push different ids. */
  lemma RuleIdInjective(a: Rule, b: Rule)
    requires RuleId(a) == RuleId(b)
    ensures a == b
  {
    var s, t := RuleId(a), RuleId(b);
    assert |s| == |t| && s[0] == t[0] && s[|s| - 1] == t[|t| - 1];
    if |s| == 19 {
      assert s[9] == t[9];
    } else if |s| == 16 {
      assert s[7] == t[7];
    }
  }

  /** `logoAnalysis && logoAnalysis.colorfulness > threshold` */
  predicate ColorfulAbove(a: Option<LogoAnalysis>, threshold: real)
  {
    a.Some? && a.value.colorfulness > threshold
  }

  /** The number of positive rotation-axis components. */
  function ActiveAxes(axis: Axis): (n: nat)
    ensures n <= 3
    ensures n == 0 <==> axis.x <= 0.0 && axis.y <= 0.0 && axis.z <= 0.0
  {
    (if axis.x > 0.0 then 1 else 0) + (if axis.y > 0.0 then 1 else 0) + (if axis.z > 0.0 then 1 else 0)
  }

  /** The condition of each rule. */
  predicate Fires(rule: Rule, ctx: Context)
  {
    var v := ctx.settings.visual;
    var noKeyframes := |ctx.settings.keyframes| == 0;
    match rule
    case AddMovement2D => v.positionX == 0.0 && v.positionY == 0.0
    case AddScaleAnimation => v.scale == 1.0 && noKeyframes
    case EnableGlow2D => ColorfulAbove(ctx.logo, 0.4) && !v.glowEnabled
    case EnableParticles2D => ColorfulAbove(ctx.logo, 0.5) && !v.particleTrailEnabled
    case AddFade2D => v.opacity == 1.0 && noKeyframes
    case EnableRotationRule => !v.enableRotation
    case IncreaseRotationSpeed => v.enableRotation && v.rotationSpeed < 0.5
    case MultiAxisRotation => v.enableRotation && ActiveAxes(v.rotationAxis) == 1
    case AddDepthMovement => v.positionZ == 0.0 && noKeyframes
    case EnableGlow3D => ColorfulAbove(ctx.logo, 0.4) && !v.glowEnabled
    case EnableParticles3D => ColorfulAbove(ctx.logo, 0.5) && !v.particleTrailEnabled
    case IncreaseShadows => v.shadowIntensity < 0.3
    case AddSceneElements => |ctx.sceneElements| == 0
  }

  /** The timestamps run from 0 to `duration`, and never decrease when the duration is not negative. */
  ghost predicate Spans(ks: seq<Keyframe>, duration: real)
  {
    && |ks| >= 2 && ks[0].timestamp == 0.0 && ks[|ks| - 1].timestamp == duration
    && (0.0 <= duration ==> forall i, j :: 0 <= i < j < |ks| ==> ks[i].timestamp <= ks[j].timestamp)
  }

  /** Every keyframe list among the changes spans the timeline. */
  ghost predicate ChangesSpan(cs: seq<Change>, duration: real)
  {
    forall c :: c in cs && c.SetKeyframes? ==> Spans(c.keyframes, duration)
  }

  /** No change touches a rotation field, and every proposed keyframe keeps the current rotation. */
  ghost predicate KeepsRotation(cs: seq<Change>, v: KeyframeSettings)
  {
    forall c :: c in cs ==>
      && FieldOf(c) != RotationSpeedField && FieldOf(c) != RotationAxisField && FieldOf(c) != EnableRotationField
      && (c.SetKeyframes? ==> forall k :: k in c.keyframes ==> SameRotation(k.settings, v))
  }

  /** `s` has the rotation settings of `v`. */
  ghost predicate SameRotation(s: KeyframeSettings, v: KeyframeSettings)
  {
    s.rotationSpeed == v.rotationSpeed && s.rotationAxis == v.rotationAxis && s.enableRotation == v.enableRotation
  }

  /** A single keyframe-list change whose keyframes keep the rotation keeps it. */
  lemma KeyframesChangeKeepsRotation(ks: seq<Keyframe>, v: KeyframeSettings)
    requires forall k :: k in ks ==> SameRotation(k.settings, v)
    ensures KeepsRotation([SetKeyframes(ks)], v)
  {
    forall c | c in [SetKeyframes(ks)]
      ensures FieldOf(c) == KeyframesField
    {
      assert c == SetKeyframes(ks);
    }
  }

  /** A keyframe list whose settings are the current ones with one field overridden each. */
  function Keyframes3(prefix: string, d: real, a: KeyframeSettings, b: KeyframeSettings, c: KeyframeSettings): (ks: seq<Keyframe>)
    ensures Spans(ks, d) && |ks| == 3
    ensures ks[1].timestamp == d / 2.0
  {
    [Keyframe(prefix + "0", 0.0, a), Keyframe(prefix + "1", d / 2.0, b), Keyframe(prefix + "2", d, c)]
  }

  /** The colourfulness of the logo; the glow rules only fire when an analysis is present. */
  function Colorfulness(a: Option<LogoAnalysis>): real
  {
    if a.Some? then a.value.colorfulness else 0.0
  }

  /** The recommendation each rule pushes (without its description). */
  function Build(rule: Rule, ctx: Context): (r: EffectRecommendation)
    ensures r.id == RuleId(rule)
  {
    var v := ctx.settings.visual;
    var d := ctx.settings.duration;
    match rule
    case AddMovement2D =>
      EffectRecommendation("add-movement-2d", "Add Movement", Medium, AnimationCategory,
        [SetKeyframes(Keyframes3("rec-kf-", d,
          v.(positionX := -1.0, positionY := 0.0),
          v.(positionX := 0.0, positionY := 0.5),
          v.(positionX := 1.0, positionY := 0.0)))])
    case AddScaleAnimation =>
      EffectRecommendation("add-scale-animation", "Add Scale Animation", Medium, AnimationCategory,
        [SetKeyframes(Keyframes3("rec-scale-", d, v.(scale := 0.5), v.(scale := 1.2), v.(scale := 1.0)))])
    case EnableGlow2D =>
      EffectRecommendation("enable-glow-2d", "Enable Glow Effect", High, EffectsCategory,
        [SetGlowEnabled(true), SetGlowIntensity(Min(0.8, Colorfulness(ctx.logo)))])
    case EnableParticles2D =>
      EffectRecommendation("enable-particles-2d", "Add Particle Trail", Medium, EffectsCategory,
        [SetParticleTrailEnabled(true)])
    case AddFade2D =>
      EffectRecommendation("add-fade-2d", "Add Fade Effect", Low, AnimationCategory, [SetKeyframes(FadeKeyframes(d, v))])
    case EnableRotationRule =>
      EffectRecommendation("enable-rotation", "Enable Rotation", High, AnimationCategory,
        [SetEnableRotation(true), SetRotationSpeed(1.5)])
    case IncreaseRotationSpeed =>
      EffectRecommendation("increase-rotation-speed", "Increase Rotation Speed", Medium, AnimationCategory,
        [SetRotationSpeed(1.5)])
    case MultiAxisRotation =>
      EffectRecommendation("multi-axis-rotation", "Add Multi-Axis Rotation", Medium, AnimationCategory,
        [SetRotationAxis(Axis(0.3, 0.7, 0.2))])
    case AddDepthMovement =>
      EffectRecommendation("add-depth-movement", "Add Depth Movement", High, AnimationCategory,
        [SetKeyframes(Keyframes3("rec-depth-", d, v.(positionZ := -3.0), v.(positionZ := 1.0), v.(positionZ := 0.0)))])
    case EnableGlow3D =>
      EffectRecommendation("enable-glow", "Enable Glow Effect", High, EffectsCategory,
        [SetGlowEnabled(true), SetGlowIntensity(Min(0.8, Colorfulness(ctx.logo)))])
    case EnableParticles3D =>
      EffectRecommendation("enable-particles", "Add Particle Trail", Medium, EffectsCategory,
        [SetParticleTrailEnabled(true)])
    case IncreaseShadows =>
      EffectRecommendation("increase-shadows", "Increase Shadow Intensity", Low, EffectsCategory,
        [SetShadowIntensity(0.6)])
    case AddSceneElements =>
      EffectRecommendation("add-scene-elements", "Add Scene Elements", Low, SceneCategory, [])
  }

  /** The fade-in/fade-out keyframes: transparent at both ends, opaque from 20% to 80% of the timeline. */
  function FadeKeyframes(d: real, v: KeyframeSettings): (ks: seq<Keyframe>)
    ensures Spans(ks, d) && |ks| == 4
    ensures ks[0].settings.opacity == 0.0 && ks[3].settings.opacity == 0.0
    ensures ks[1].settings.opacity == 1.0 && ks[2].settings.opacity == 1.0
    ensures ks[1].timestamp == d * 0.2 && ks[2].timestamp == d * 0.8
  {
    assert 0.0 <= d ==> 0.0 <= d * 0.2 <= d * 0.8 <= d;
    [Keyframe("rec-fade-0", 0.0, v.(opacity := 0.0)),
     Keyframe("rec-fade-1", d * 0.2, v.(opacity := 1.0)),
     Keyframe("rec-fade-2", d * 0.8, v.(opacity := 1.0)),
     Keyframe("rec-fade-3", d, v.(opacity := 0.0))]
  }

  /** Every keyframe list a rule proposes runs from 0 to the current duration. */
  lemma BuildSpans(rule: Rule, ctx: Context)
    ensures ChangesSpan(Build(rule, ctx).changes, ctx.settings.duration)
  {
  }

  /** Every keyframe of a three-keyframe list carries one of its three settings. */
  lemma Keyframes3Settings(prefix: string, d: real, a: KeyframeSettings, b: KeyframeSettings, c: KeyframeSettings, v: KeyframeSettings)
    requires SameRotation(a, v) && SameRotation(b, v) && SameRotation(c, v)
    ensures forall k :: k in Keyframes3(prefix, d, a, b, c) ==> SameRotation(k.settings, v)
  {
  }

  /** The fade keyframes only change the opacity. */
  lemma FadeSettings(d: real, v: KeyframeSettings)
    ensures forall k :: k in FadeKeyframes(d, v) ==> SameRotation(k.settings, v)
  {
  }

  /** Moving across the plane keeps the rotation settings. */
  lemma MovementKeepsRotation(ctx: Context)
    ensures KeepsRotation(Build(AddMovement2D, ctx).changes, ctx.settings.visual)
  {
    var v, d := ctx.settings.visual, ctx.settings.duration;
    var a, b, c := v.(positionX := -1.0, positionY := 0.0), v.(positionX := 0.0, positionY := 0.5), v.(positionX := 1.0, positionY := 0.0);
    Keyframes3Settings("rec-kf-", d, a, b, c, v);
    KeyframesChangeKeepsRotation(Keyframes3("rec-kf-", d, a, b, c), v);
  }

  /** Scaling keeps the rotation settings. */
  lemma ScalingKeepsRotation(ctx: Context)
    ensures KeepsRotation(Build(AddScaleAnimation, ctx).changes, ctx.settings.visual)
  {
    var v, d := ctx.settings.visual, ctx.settings.duration;
    Keyframes3Settings("rec-scale-", d, v.(scale := 0.5), v.(scale := 1.2), v.(scale := 1.0), v);
    KeyframesChangeKeepsRotation(Keyframes3("rec-scale-", d, v.(scale := 0.5), v.(scale := 1.2), v.(scale := 1.0)), v);
  }

  /** Fading keeps the rotation settings. */
  lemma FadingKeepsRotation(ctx: Context)
    ensures KeepsRotation(Build(AddFade2D, ctx).changes, ctx.settings.visual)
  {
    FadeSettings(ctx.settings.duration, ctx.settings.visual);
    KeyframesChangeKeepsRotation(FadeKeyframes(ctx.settings.duration, ctx.settings.visual), ctx.settings.visual);
  }

  /** The 2D glow and particle rules only switch effects. */
  lemma EffectsKeepRotation(rule: Rule, ctx: Context)
    requires rule == EnableGlow2D || rule == EnableParticles2D
    ensures KeepsRotation(Build(rule, ctx).changes, ctx.settings.visual)
  {
  }

  /** The 2D rules leave rotation alone: their keyframes copy the current rotation settings. */
  lemma BuildKeepsRotation(rule: Rule, ctx: Context)
    requires rule in Rules2D
    ensures KeepsRotation(Build(rule, ctx).changes, ctx.settings.visual)
  {
    if rule == AddMovement2D {
      MovementKeepsRotation(ctx);
    } else if rule == AddScaleAnimation {
      ScalingKeepsRotation(ctx);
    } else if rule == AddFade2D {
      FadingKeepsRotation(ctx);
    } else {
      assert rule == EnableGlow2D || rule == EnableParticles2D;
      EffectsKeepRotation(rule, ctx);
    }
  }

  /** The glow rules switch glow on with an intensity of at most 0.8, the logo's colourfulness when below that. */
  lemma GlowRecommendation(rule: Rule, ctx: Context)
    requires rule == EnableGlow2D || rule == EnableGlow3D
    requires Fires(rule, ctx)
    ensures var r := Build(rule, ctx);
      && r.priority == High && r.category == EffectsCategory
      && |r.changes| == 2 && r.changes[0] == SetGlowEnabled(true) && r.changes[1].SetGlowIntensity?
      && r.changes[1].glowIntensity <= 0.8
      && 0.4 < r.changes[1].glowIntensity
      && (ctx.logo.value.colorfulness <= 0.8 ==> r.changes[1].glowIntensity == ctx.logo.value.colorfulness)
  {
  }

  /** A rule's contribution: its recommendation when it fires, nothing otherwise. */
  function Step(rule: Rule, ctx: Context): (out: seq<EffectRecommendation>)
    ensures |out| <= 1
    ensures |out| == 1 <==> Fires(rule, ctx)
  {
    if Fires(rule, ctx) then [Build(rule, ctx)] else []
  }

  /**
   * One `if (condition) { recommendations.push(...) }` block of an analyser:
   * the block of `rule`, whose condition is `Fires(rule, ctx)`.
   */
  method PushIf(recommendations: seq<EffectRecommendation>, rule: Rule, ctx: Context)
    returns (updated: seq<EffectRecommendation>)
    ensures updated == recommendations + Step(rule, ctx)
  {
    if Fires(rule, ctx) {
      updated := recommendations + [Build(rule, ctx)];
    } else {
      updated := recommendations;
    }
  }

  /** The rules among `rules` whose condition holds, in order. */
  function FiringRules(rules: seq<Rule>, ctx: Context): (fired: seq<Rule>)
    ensures |fired| <= |rules|
    ensures forall rule :: rule in fired <==> rule in rules && Fires(rule, ctx)
    decreases |rules|
  {
    if rules == [] then []
    else
      var init := rules[..|rules| - 1];
      var last := rules[|rules| - 1];
      assert forall x :: x in rules <==> x in init || x == last;
      FiringRules(init, ctx) + if Fires(last, ctx) then [last] else []
  }

  /** The recommendations of the firing rules among `rules`, in rule order. */
  function Fired(rules: seq<Rule>, ctx: Context): seq<EffectRecommendation>
    decreases |rules|
  {
    if rules == [] then []
    else Fired(rules[..|rules| - 1], ctx) + Step(rules[|rules| - 1], ctx)
  }

  /** Appending a rule appends its contribution. */
  lemma FiredSnoc(rules: seq<Rule>, rule: Rule, ctx: Context)
    ensures Fired(rules + [rule], ctx) == Fired(rules, ctx) + Step(rule, ctx)
  {
    assert (rules + [rule])[..|rules|] == rules;
  }

  /** Cutting a rule list after position k + 1 adds rule k's contribution to the cut after k. */
  lemma FiredPrefix(rules: seq<Rule>, k: nat)
    requires k < |rules|
    ensures forall ctx :: Fired(rules[..k + 1], ctx) == Fired(rules[..k], ctx) + Step(rules[k], ctx)
  {
    assert rules[..k + 1][..k] == rules[..k];
  }

  /** Five blocks in a row give the recommendations of their five rules. */
  lemma {:induction false} FiredFive(rules: seq<Rule>, ctx: Context)
    requires |rules| == 5
    ensures Fired(rules, ctx) == [] + Step(rules[0], ctx) + Step(rules[1], ctx) + Step(rules[2], ctx)
      + Step(rules[3], ctx) + Step(rules[4], ctx)
  {
    assert rules[..0] == [];
    assert rules[..5] == rules;
    FiredPrefix(rules, 0);
    FiredPrefix(rules, 1);
    FiredPrefix(rules, 2);
    FiredPrefix(rules, 3);
    FiredPrefix(rules, 4);
  }

  /** Eight blocks in a row give the recommendations of their eight rules. */
  lemma {:induction false} FiredEight(rules: seq<Rule>, ctx: Context)
    requires |rules| == 8
    ensures Fired(rules, ctx) == [] + Step(rules[0], ctx) + Step(rules[1], ctx) + Step(rules[2], ctx)
      + Step(rules[3], ctx) + Step(rules[4], ctx) + Step(rules[5], ctx) + Step(rules[6], ctx)
      + Step(rules[7], ctx)
  {
    assert rules[..0] == [];
    assert rules[..8] == rules;
    FiredPrefix(rules, 0);
    FiredPrefix(rules, 1);
    FiredPrefix(rules, 2);
    FiredPrefix(rules, 3);
    FiredPrefix(rules, 4);
    FiredPrefix(rules, 5);
    FiredPrefix(rules, 6);
    FiredPrefix(rules, 7);
  }

  /** The recommendations are exactly the built firing rules, one for one. */
  lemma {:induction false} FiredIsBuiltFiringRules(rules: seq<Rule>, ctx: Context)
    ensures var recs, fired := Fired(rules, ctx), FiringRules(rules, ctx);
      |recs| == |fired| && forall i :: 0 <= i < |recs| ==> recs[i] == Build(fired[i], ctx)
    decreases |rules|
  {
    if rules != [] {
      FiredIsBuiltFiringRules(rules[..|rules| - 1], ctx);
    }
  }

  /** The position of a rule in a rule list (its length when absent). */
  function Position(rules: seq<Rule>, rule: Rule): (n: nat)
    ensures n <= |rules|
    ensures n < |rules| <==> rule in rules
    ensures n < |rules| ==> rules[n] == rule
  {
    if rules == [] then 0
    else if rules[0] == rule then 0
    else 1 + Position(rules[1..], rule)
  }

  /** A rule list without repetitions. */
  ghost predicate NoRepeats(rules: seq<Rule>)
  {
    forall i, j :: 0 <= i < j < |rules| ==> rules[i] != rules[j]
  }

  /** In a list without repetitions, the position of the element at index i is i. */
  lemma {:induction false} PositionOfIndex(rules: seq<Rule>, i: nat)
    requires NoRepeats(rules) && i < |rules|
    ensures Position(rules, rules[i]) == i
    decreases |rules|
  {
    if i > 0 {
      assert rules[0] != rules[i];
      assert rules[1..][i - 1] == rules[i];
      PositionOfIndex(rules[1..], i - 1);
    }
  }

  /** The elements of `sub` occur in `rules` in the order they have in `sub`. */
  ghost predicate InRuleOrder(rules: seq<Rule>, sub: seq<Rule>)
  {
    forall i, j :: 0 <= i < j < |sub| ==> Position(rules, sub[i]) < Position(rules, sub[j])
  }

  /** The firing rules keep the order of the rule list, so none repeats. */
  lemma {:induction false} FiringRulesInOrder(rules: seq<Rule>, ctx: Context)
    requires NoRepeats(rules)
    ensures InRuleOrder(rules, FiringRules(rules, ctx))
    decreases |rules|
  {
    if rules != [] {
      var init := rules[..|rules| - 1];
      var last := rules[|rules| - 1];
      assert NoRepeats(init) by {
        forall i, j | 0 <= i < j < |init| ensures init[i] != init[j] {
          assert init[i] == rules[i] && init[j] == rules[j];
        }
      }
      FiringRulesInOrder(init, ctx);
      var fi := FiringRules(init, ctx);
      assert InRuleOrder(init, fi);
      var fired := FiringRules(rules, ctx);
      forall x | x in init
        ensures Position(rules, x) == Position(init, x)
      {
        var k :| 0 <= k < |init| && init[k] == x;
        PositionOfIndex(init, k);
        PositionOfIndex(rules, k);
      }
      PositionOfIndex(rules, |rules| - 1);
      assert fired == fi + if Fires(last, ctx) then [last] else [];
      forall i, j | 0 <= i < j < |fired|
        ensures Position(rules, fired[i]) < Position(rules, fired[j])
      {
        assert i < |fi| && fired[i] == fi[i];
        assert fi[i] in fi && fi[i] in init;
        assert Position(rules, fi[i]) == Position(init, fi[i]) < |init|;
        if j < |fi| {
          assert fired[j] == fi[j] && fi[j] in fi && fi[j] in init;
          assert Position(rules, fi[j]) == Position(init, fi[j]);
          assert Position(init, fi[i]) < Position(init, fi[j]);
        } else {
          assert fired[j] == last;
        }
      }
    }
  }

  /** Some recommendation in the list has this id. */
  ghost predicate Has(recs: seq<EffectRecommendation>, id: string)
  {
    exists i :: 0 <= i < |recs| && recs[i].id == id
  }

  /** A rule's recommendation is present exactly when the rule is in the list and fires. */
  lemma FiredHas(rules: seq<Rule>, ctx: Context, rule: Rule)
    ensures Has(Fired(rules, ctx), RuleId(rule)) <==> rule in rules && Fires(rule, ctx)
  {
    FiredIsBuiltFiringRules(rules, ctx);
    var recs, fired := Fired(rules, ctx), FiringRules(rules, ctx);
    if Has(recs, RuleId(rule)) {
      var i :| 0 <= i < |recs| && recs[i].id == RuleId(rule);
      RuleIdInjective(fired[i], rule);
      assert fired[i] in fired;
    }
    if rule in rules && Fires(rule, ctx) {
      var i :| 0 <= i < |fired| && fired[i] == rule;
      assert recs[i].id == RuleId(rule);
    }
  }

  /** The recommendations of a rule list without repetitions have pairwise distinct ids. */
  lemma FiredDistinct(rules: seq<Rule>, ctx: Context)
    requires NoRepeats(rules)
    ensures forall i, j :: 0 <= i < j < |Fired(rules, ctx)| ==> Fired(rules, ctx)[i].id != Fired(rules, ctx)[j].id
  {
    FiredIsBuiltFiringRules(rules, ctx);
    FiringRulesInOrder(rules, ctx);
    var recs, fired := Fired(rules, ctx), FiringRules(rules, ctx);
    forall i, j | 0 <= i < j < |recs|
      ensures recs[i].id != recs[j].id
    {
      assert Position(rules, fired[i]) < Position(rules, fired[j]);
      if recs[i].id == recs[j].id {
        RuleIdInjective(fired[i], fired[j]);
      }
    }
  }

  /** Every recommendation is the one some firing rule of the list builds. */
  lemma FiredFrom(rules: seq<Rule>, ctx: Context)
    ensures forall r :: r in Fired(rules, ctx) ==> exists rule :: rule in rules && Fires(rule, ctx) && r == Build(rule, ctx)
  {
    FiredIsBuiltFiringRules(rules, ctx);
    var recs, fired := Fired(rules, ctx), FiringRules(rules, ctx);
    forall r | r in recs
      ensures exists rule :: rule in rules && Fires(rule, ctx) && r == Build(rule, ctx)
    {
      var i :| 0 <= i < |recs| && recs[i] == r;
      assert fired[i] in fired;
    }
  }

  /** In 2D no recommendation touches rotation, and every proposed keyframe list spans the timeline. */
  lemma Analysis2DKeepsRotation(ctx: Context)
    ensures forall r :: r in Fired(Rules2D, ctx) ==> KeepsRotation(r.changes, ctx.settings.visual)
    ensures forall r :: r in Fired(Rules2D, ctx) ==> ChangesSpan(r.changes, ctx.settings.duration)
  {
    FiredFrom(Rules2D, ctx);
    forall r | r in Fired(Rules2D, ctx)
      ensures KeepsRotation(r.changes, ctx.settings.visual) && ChangesSpan(r.changes, ctx.settings.duration)
    {
      var rule :| rule in Rules2D && Fires(rule, ctx) && r == Build(rule, ctx);
      BuildKeepsRotation(rule, ctx);
      BuildSpans(rule, ctx);
    }
  }

  /** In 3D `enable-rotation` and `increase-rotation-speed` never come together. */
  lemma RotationRulesExclusive(ctx: Context)
    ensures !(Has(Fired(Rules3D, ctx), "enable-rotation") && Has(Fired(Rules3D, ctx), "increase-rotation-speed"))
  {
    FiredHas(Rules3D, ctx, EnableRotationRule);
    FiredHas(Rules3D, ctx, IncreaseRotationSpeed);
  }

  /** Every proposed keyframe list of the 3D analyser spans the timeline. */
  lemma Analysis3DSpans(ctx: Context)
    ensures forall r :: r in Fired(Rules3D, ctx) ==> ChangesSpan(r.changes, ctx.settings.duration)
  {
    FiredFrom(Rules3D, ctx);
    forall r | r in Fired(Rules3D, ctx)
      ensures ChangesSpan(r.changes, ctx.settings.duration)
    {
      var rule :| rule in Rules3D && Fires(rule, ctx) && r == Build(rule, ctx);
      BuildSpans(rule, ctx);
    }
  }

  /** Both analysers recommend glow exactly for a present analysis with colourfulness above 0.4 while glow is off. */
  lemma AnalysisGlow(ctx: Context)
    ensures Has(Fired(Rules2D, ctx), "enable-glow-2d")
      <==> ctx.logo.Some? && ctx.logo.value.colorfulness > 0.4 && !ctx.settings.visual.glowEnabled
    ensures Has(Fired(Rules3D, ctx), "enable-glow")
      <==> ctx.logo.Some? && ctx.logo.value.colorfulness > 0.4 && !ctx.settings.visual.glowEnabled
  {
    FiredHas(Rules2D, ctx, EnableGlow2D);
    FiredHas(Rules3D, ctx, EnableGlow3D);
  }

  /** In 3D, multi-axis rotation is recommended exactly when rotation is on about a single positive axis. */
  lemma AnalysisMultiAxis(ctx: Context)
    ensures Has(Fired(Rules3D, ctx), "multi-axis-rotation")
      <==> ctx.settings.visual.enableRotation && ActiveAxes(ctx.settings.visual.rotationAxis) == 1
  {
    FiredHas(Rules3D, ctx, MultiAxisRotation);
  }

  /** In 3D, scene elements are recommended exactly for an empty scene, and that recommendation changes nothing. */
  lemma AnalysisSceneElements(ctx: Context)
    ensures Has(Fired(Rules3D, ctx), "add-scene-elements") <==> |ctx.sceneElements| == 0
    ensures forall r :: r in Fired(Rules3D, ctx) && r.id == "add-scene-elements" ==> r.changes == []
  {
    FiredHas(Rules3D, ctx, AddSceneElements);
    FiredFrom(Rules3D, ctx);
    forall r | r in Fired(Rules3D, ctx) && r.id == "add-scene-elements"
      ensures r.changes == []
    {
      var rule :| rule in Rules3D && Fires(rule, ctx) && r == Build(rule, ctx);
      BuiltSceneElements(rule, ctx);
    }
  }

  /** Whichever rule built a recommendation with the scene-elements id, it changes nothing. */
  lemma BuiltSceneElements(rule: Rule, ctx: Context)
    requires Build(rule, ctx).id == "add-scene-elements"
    ensures Build(rule, ctx).changes == []
  {
    RuleIdInjective(rule, AddSceneElements);
    SceneElementsChanges(ctx);
  }

  /** The scene-elements suggestion changes nothing by itself. */
  lemma SceneElementsChanges(ctx: Context)
    ensures Build(AddSceneElements, ctx).changes == []
  {
  }

  /** Neither analyser pushes two recommendations with the same id. */
  lemma AnalysisIdsDistinct(ctx: Context)
    ensures forall i, j :: 0 <= i < j < |Fired(Rules2D, ctx)| ==> Fired(Rules2D, ctx)[i].id != Fired(Rules2D, ctx)[j].id
    ensures forall i, j :: 0 <= i < j < |Fired(Rules3D, ctx)| ==> Fired(Rules3D, ctx)[i].id != Fired(Rules3D, ctx)[j].id
  {
    FiredDistinct(Rules2D, ctx);
    FiredDistinct(Rules3D, ctx);
  }

  /** `analyze2DEffects(settings, logoAnalysis)`: the 2D rules in order; none of them concerns rotation. */
  method Analyze2DEffects(settings: AnimationSettings, logoAnalysis: Option<LogoAnalysis>)
    returns (recommendations: seq<EffectRecommendation>)
    ensures recommendations == Fired(Rules2D, Context(settings, logoAnalysis, []))
  {
    var ctx := Context(settings, logoAnalysis, []);
    recommendations := [];
    recommendations := PushIf(recommendations, AddMovement2D, ctx);
    recommendations := PushIf(recommendations, AddScaleAnimation, ctx);
    recommendations := PushIf(recommendations, EnableGlow2D, ctx);
    recommendations := PushIf(recommendations, EnableParticles2D, ctx);
    recommendations := PushIf(recommendations, AddFade2D, ctx);
    FiredFive(Rules2D, ctx);
  }

  /** `analyze3DEffects(settings, logoAnalysis, sceneElements)`: the 3D rules in order. */
  method Analyze3DEffects(settings: AnimationSettings, logoAnalysis: Option<LogoAnalysis>, sceneElements: seq<SceneElement>)
    returns (recommendations: seq<EffectRecommendation>)
    ensures recommendations == Fired(Rules3D, Context(settings, logoAnalysis, sceneElements))
  {
    var ctx := Context(settings, logoAnalysis, sceneElements);
    recommendations := [];
    // The `else if` of the rotation speed block is the `enableRotation` conjunct of its condition.
    recommendations := PushIf(recommendations, EnableRotationRule, ctx);
    recommendations := PushIf(recommendations, IncreaseRotationSpeed, ctx);
    recommendations := PushIf(recommendations, MultiAxisRotation, ctx);
    recommendations := PushIf(recommendations, AddDepthMovement, ctx);
    recommendations := PushIf(recommendations, EnableGlow3D, ctx);
    recommendations := PushIf(recommendations, EnableParticles3D, ctx);
    recommendations := PushIf(recommendations, IncreaseShadows, ctx);
    recommendations := PushIf(recommendations, AddSceneElements, ctx);
    FiredEight(Rules3D, ctx);
  }

  /** `analyzeEffects(settings, logoAnalysis, sceneElements, workflowMode)`: 2D ignores the scene elements. */
  method AnalyzeEffects(settings: AnimationSettings, logoAnalysis: Option<LogoAnalysis>,
                        sceneElements: seq<SceneElement>, workflowMode: RenderMode)
    returns (recommendations: seq<EffectRecommendation>)
    ensures workflowMode == Mode2D ==> recommendations == Fired(Rules2D, Context(settings, logoAnalysis, []))
    ensures workflowMode == Mode3D ==> recommendations == Fired(Rules3D, Context(settings, logoAnalysis, sceneElements))
  {
    if workflowMode == Mode2D {
      recommendations := Analyze2DEffects(settings, logoAnalysis);
    } else {
      recommendations := Analyze3DEffects(settings, logoAnalysis, sceneElements);
    }
  }
}
