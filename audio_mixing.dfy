/**
 * The sound-effect trigger times of an animation: the moments at which the
 * rotation, scale and particle sound effects play.
 *
 * With keyframes, the keyframes are scanned in timestamp order: a rotation
 * trigger at every keyframe that rotates, a scale trigger at every keyframe
 * whose scale differs by more than 0.1 from the previous keyframe's, and a
 * particle trigger at every keyframe with the particle trail on. Without
 * keyframes, the rotation and particle effects each trigger once at time 0
 * when enabled, and the scale effect never does.
 */
module AudioMixing {
  import opened Base
  import opened Sorting
  import opened AnimationModel
  import opened Interpolation

  /** `{ rotation: number[]; scale: number[]; particle: number[] }` */
  datatype Triggers = Triggers(rotation: seq<real>, scale: seq<real>, particle: seq<real>)

  /** `kf.settings.enableRotation && kf.settings.rotationSpeed > 0` */
  predicate Rotates(k: Keyframe)
  {
    k.settings.enableRotation && k.settings.rotationSpeed > 0.0
  }

  /** `kf.settings.particleTrailEnabled` */
  predicate EmitsParticles(k: Keyframe)
  {
    k.settings.particleTrailEnabled
  }

  /** `Math.abs(kf.settings.scale - prevKf.settings.scale) > 0.1` */
  predicate ScaleJump(prev: Keyframe, k: Keyframe)
  {
    Abs(k.settings.scale - prev.settings.scale) > 0.1
  }

  /** The timestamps, in order, of the keyframes that satisfy `keep`. */
  function TimesWhere(ks: seq<Keyframe>, keep: Keyframe -> bool): (ts: seq<real>)
    ensures |ts| <= |ks|
  {
    if ks == [] then []
    else TimesWhere(ks[..|ks| - 1], keep) + if keep(ks[|ks| - 1]) then [ks[|ks| - 1].timestamp] else []
  }

  /** The timestamps, in order, of the keyframes (after the first) whose scale jumps from their predecessor's. */
  function ScaleTimes(ks: seq<Keyframe>): (ts: seq<real>)
    ensures |ts| <= if ks == [] then 0 else |ks| - 1
  {
    if |ks| <= 1 then []
    else ScaleTimes(ks[..|ks| - 1]) + if ScaleJump(ks[|ks| - 2], ks[|ks| - 1]) then [ks[|ks| - 1].timestamp] else []
  }

  /** The triggers `calculateSoundEffectTriggers` returns for these settings. */
  function TriggersOf(settings: AnimationSettings): Triggers
  {
    if |settings.keyframes| > 0 then
      var sorted := SortedKeyframes(settings.keyframes);
      Triggers(TimesWhere(sorted, Rotates), ScaleTimes(sorted), TimesWhere(sorted, EmitsParticles))
    else
      Triggers(if settings.visual.enableRotation then [0.0] else [],
               [],
               if settings.visual.particleTrailEnabled then [0.0] else [])
  }

  /** Extending the scanned prefix by keyframe i extends each trigger list by that keyframe's trigger, if any. */
  lemma ScanStep(ks: seq<Keyframe>, i: nat)
    requires i < |ks|
    ensures TimesWhere(ks[..i + 1], Rotates)
      == TimesWhere(ks[..i], Rotates) + if Rotates(ks[i]) then [ks[i].timestamp] else []
    ensures TimesWhere(ks[..i + 1], EmitsParticles)
      == TimesWhere(ks[..i], EmitsParticles) + if EmitsParticles(ks[i]) then [ks[i].timestamp] else []
    ensures ScaleTimes(ks[..i + 1])
      == ScaleTimes(ks[..i]) + if i > 0 && ScaleJump(ks[i - 1], ks[i]) then [ks[i].timestamp] else []
  {
    var prefix := ks[..i + 1];
    assert prefix[..i] == ks[..i] && prefix[i] == ks[i];
    if i > 0 {
      assert prefix[i - 1] == ks[i - 1];
    }
  }

  /** The trigger lists after the first `n` keyframes of `ks` are scanned. */
  function Scan(ks: seq<Keyframe>, n: nat): Triggers
    requires n <= |ks|
  {
    if n == 0 then Triggers([], [], [])
    else
      var t, k := Scan(ks, n - 1), ks[n - 1];
      Triggers(
        t.rotation + (if Rotates(k) then [k.timestamp] else []),
        t.scale + (if n > 1 && ScaleJump(ks[n - 2], k) then [k.timestamp] else []),
        t.particle + (if EmitsParticles(k) then [k.timestamp] else []))
  }

  /** Scanning a prefix lists the trigger times of that prefix. */
  lemma {:induction false} ScanPrefix(ks: seq<Keyframe>, n: nat)
    requires n <= |ks|
    ensures Scan(ks, n) == Triggers(TimesWhere(ks[..n], Rotates), ScaleTimes(ks[..n]), TimesWhere(ks[..n], EmitsParticles))
  {
    if n > 0 {
      ScanPrefix(ks, n - 1);
      ScanStep(ks, n - 1);
    }
  }

  /**
   * `calculateSoundEffectTriggers(animationSettings, duration)`: one scan of
   * the sorted keyframes that pushes onto the three trigger lists. The
   * duration is not used.
   */
  method CalculateSoundEffectTriggers(animationSettings: AnimationSettings, duration: real)
    returns (triggers: Triggers)
    ensures triggers == TriggersOf(animationSettings)
  {
    triggers := Triggers([], [], []);
    if |animationSettings.keyframes| > 0 {
      var sortedKeyframes := SortedKeyframes(animationSettings.keyframes);
      var i := 0;
      while i < |sortedKeyframes|
        invariant 0 <= i <= |sortedKeyframes|
        invariant triggers == Scan(sortedKeyframes, i)
      {
        var kf := sortedKeyframes[i];
        if kf.settings.enableRotation && kf.settings.rotationSpeed > 0.0 {
          triggers := triggers.(rotation := triggers.rotation + [kf.timestamp]);
        }
        if i > 0 {
          var prevKf := sortedKeyframes[i - 1];
          if Abs(kf.settings.scale - prevKf.settings.scale) > 0.1 {
            triggers := triggers.(scale := triggers.scale + [kf.timestamp]);
          }
        }
        if kf.settings.particleTrailEnabled {
          triggers := triggers.(particle := triggers.particle + [kf.timestamp]);
        }
        i := i + 1;
      }
      ScanPrefix(sortedKeyframes, i);
      assert sortedKeyframes[..i] == sortedKeyframes;
    } else {
      if animationSettings.visual.enableRotation {
        triggers := triggers.(rotation := triggers.rotation + [0.0]);
      }
      if animationSettings.visual.particleTrailEnabled {
        triggers := triggers.(particle := triggers.particle + [0.0]);
      }
    }
  }

  /** A non-decreasing list of times. */
  ghost predicate NonDecreasing(ts: seq<real>)
  {
    forall i, j :: 0 <= i < j < |ts| ==> ts[i] <= ts[j]
  }

  /** A time is listed exactly when some keyframe satisfying `keep` has it. */
  lemma {:induction false} TimesWhereMembers(ks: seq<Keyframe>, keep: Keyframe -> bool)
    ensures forall t :: t in TimesWhere(ks, keep) <==> exists k :: k in ks && keep(k) && k.timestamp == t
  {
    if ks != [] {
      var init, last := ks[..|ks| - 1], ks[|ks| - 1];
      TimesWhereMembers(init, keep);
      assert ks == init + [last];
      assert forall k :: k in ks <==> k in init || k == last;
    }
  }

  /** A time is listed exactly when some keyframe after the first jumps in scale at it. */
  lemma ScaleTimesMembers(ks: seq<Keyframe>)
    ensures forall t :: t in ScaleTimes(ks) <==>
      exists i :: 0 < i < |ks| && ScaleJump(ks[i - 1], ks[i]) && ks[i].timestamp == t
  {
    forall t
      ensures t in ScaleTimes(ks) <==> exists i :: 0 < i < |ks| && ScaleJump(ks[i - 1], ks[i]) && ks[i].timestamp == t
    {
      if t in ScaleTimes(ks) {
        ScaleTimesSound(ks, t);
      }
      if exists i :: 0 < i < |ks| && ScaleJump(ks[i - 1], ks[i]) && ks[i].timestamp == t {
        var i :| 0 < i < |ks| && ScaleJump(ks[i - 1], ks[i]) && ks[i].timestamp == t;
        ScaleTimesComplete(ks, i);
      }
    }
  }

  /** Every listed time is that of a keyframe whose scale jumps from its predecessor's. */
  lemma {:induction false} ScaleTimesSound(ks: seq<Keyframe>, t: real)
    requires t in ScaleTimes(ks)
    ensures exists i :: 0 < i < |ks| && ScaleJump(ks[i - 1], ks[i]) && ks[i].timestamp == t
  {
    var n := |ks|;
    var init := ks[..n - 1];
    assert init[n - 2] == ks[n - 2];
    var last := if ScaleJump(ks[n - 2], ks[n - 1]) then [ks[n - 1].timestamp] else [];
    assert ScaleTimes(ks) == ScaleTimes(init) + last;
    if t in ScaleTimes(init) {
      ScaleTimesSound(init, t);
      var i :| 0 < i < n - 1 && ScaleJump(init[i - 1], init[i]) && init[i].timestamp == t;
      assert ks[i - 1] == init[i - 1] && ks[i] == init[i];
    } else {
      assert t in last;
      assert ScaleJump(ks[n - 2], ks[n - 1]) && ks[n - 1].timestamp == t;
    }
  }

  /** Every keyframe whose scale jumps from its predecessor's has its time listed. */
  lemma {:induction false} ScaleTimesComplete(ks: seq<Keyframe>, i: nat)
    requires 0 < i < |ks| && ScaleJump(ks[i - 1], ks[i])
    ensures ks[i].timestamp in ScaleTimes(ks)
  {
    var n := |ks|;
    var init := ks[..n - 1];
    assert init[n - 2] == ks[n - 2];
    var last := if ScaleJump(ks[n - 2], ks[n - 1]) then [ks[n - 1].timestamp] else [];
    assert ScaleTimes(ks) == ScaleTimes(init) + last;
    if i < n - 1 {
      assert init[i - 1] == ks[i - 1] && init[i] == ks[i];
      ScaleTimesComplete(init, i);
    }
  }

  /** Over keyframes sorted by time, the listed times never decrease. */
  lemma {:induction false} TimesWhereSorted(ks: seq<Keyframe>, keep: Keyframe -> bool)
    requires SortedBy(ks, Timestamp)
    ensures NonDecreasing(TimesWhere(ks, keep))
  {
    if ks != [] {
      var n := |ks|;
      var init := ks[..n - 1];
      assert SortedBy(init, Timestamp) by {
        forall i, j | 0 <= i < j < |init| ensures init[i].timestamp <= init[j].timestamp {
          assert init[i] == ks[i] && init[j] == ks[j];
        }
      }
      TimesWhereSorted(init, keep);
      TimesWhereMembers(init, keep);
      var prev := TimesWhere(init, keep);
      forall t | t in prev
        ensures t <= ks[n - 1].timestamp
      {
        var k :| k in init && keep(k) && k.timestamp == t;
        var i :| 0 <= i < |init| && init[i] == k;
        assert ks[i] == k;
      }
      var ts := TimesWhere(ks, keep);
      forall i, j | 0 <= i < j < |ts|
        ensures ts[i] <= ts[j]
      {
        if j < |prev| {
          assert ts[i] == prev[i] && ts[j] == prev[j];
        } else {
          assert ts[i] == prev[i] && prev[i] in prev;
        }
      }
    }
  }

  /** Over keyframes sorted by time, the scale trigger times never decrease. */
  lemma {:induction false} ScaleTimesSorted(ks: seq<Keyframe>)
    requires SortedBy(ks, Timestamp)
    ensures NonDecreasing(ScaleTimes(ks))
  {
    if |ks| > 1 {
      var n := |ks|;
      var init := ks[..n - 1];
      assert SortedBy(init, Timestamp) by {
        forall i, j | 0 <= i < j < |init| ensures init[i].timestamp <= init[j].timestamp {
          assert init[i] == ks[i] && init[j] == ks[j];
        }
      }
      ScaleTimesSorted(init);
      ScaleTimesMembers(init);
      var prev := ScaleTimes(init);
      forall t | t in prev
        ensures t <= ks[n - 1].timestamp
      {
        var i :| 0 < i < |init| && ScaleJump(init[i - 1], init[i]) && init[i].timestamp == t;
        assert ks[i] == init[i];
      }
      var ts := ScaleTimes(ks);
      forall i, j | 0 <= i < j < |ts|
        ensures ts[i] <= ts[j]
      {
        if j < |prev| {
          assert ts[i] == prev[i] && ts[j] == prev[j];
        } else {
          assert ts[i] == prev[i] && prev[i] in prev;
        }
      }
    }
  }

  /** Without keyframes: rotation at 0 iff rotation is on, particles at 0 iff the trail is on, never scale. */
  lemma TriggersWithoutKeyframes(settings: AnimationSettings)
    requires settings.keyframes == []
    ensures var t := TriggersOf(settings);
      && (t.rotation == [0.0] <==> settings.visual.enableRotation)
      && (t.rotation == [] <==> !settings.visual.enableRotation)
      && (t.particle == [0.0] <==> settings.visual.particleTrailEnabled)
      && (t.particle == [] <==> !settings.visual.particleTrailEnabled)
      && t.scale == []
  {
  }

  /**
   * With keyframes, every trigger list is in non-decreasing time order and no
   * longer than the keyframe list; rotation and particle triggers fire at the
   * times of exactly the keyframes that rotate or emit particles, and a scale
   * trigger fires at a sorted keyframe only if it has a predecessor whose
   * scale differs from its own by more than 0.1.
   */
  lemma TriggersWithKeyframes(settings: AnimationSettings)
    requires settings.keyframes != []
    ensures var t, ks := TriggersOf(settings), settings.keyframes;
      && NonDecreasing(t.rotation) && NonDecreasing(t.scale) && NonDecreasing(t.particle)
      && |t.rotation| <= |ks| && |t.scale| < |ks| && |t.particle| <= |ks|
      && (forall x :: x in t.rotation <==> exists k :: k in ks && Rotates(k) && k.timestamp == x)
      && (forall x :: x in t.particle <==> exists k :: k in ks && EmitsParticles(k) && k.timestamp == x)
  {
    var sorted := SortedKeyframes(settings.keyframes);
    SortedKeyframesFacts(settings.keyframes);
    TimesWhereSorted(sorted, Rotates);
    TimesWhereSorted(sorted, EmitsParticles);
    ScaleTimesSorted(sorted);
    TimesWhereMembers(sorted, Rotates);
    TimesWhereMembers(sorted, EmitsParticles);
  }

  /** The scale triggers of a sorted keyframe list: the first keyframe never triggers on its own account. */
  lemma ScaleTriggersNeedPredecessor(settings: AnimationSettings)
    requires settings.keyframes != []
    ensures var sorted := SortedKeyframes(settings.keyframes);
      forall x :: x in TriggersOf(settings).scale <==>
        exists i :: 0 < i < |sorted| && ScaleJump(sorted[i - 1], sorted[i]) && sorted[i].timestamp == x
  {
    ScaleTimesMembers(SortedKeyframes(settings.keyframes));
  }

  /**
   * When the timestamps are distinct, the triggers depend on the keyframes
   * only as a multiset: reordering the input list changes nothing.
   */
  lemma TriggersIgnoreInputOrder(a: AnimationSettings, b: AnimationSettings)
    requires a.visual == b.visual
    requires multiset(a.keyframes) == multiset(b.keyframes)
    requires DistinctBy(a.keyframes, Timestamp)
    ensures TriggersOf(a) == TriggersOf(b)
  {
    SortedKeyframesUnique(a.keyframes, b.keyframes);
    assert |a.keyframes| == |b.keyframes| by {
      assert |multiset(a.keyframes)| == |a.keyframes| && |multiset(b.keyframes)| == |b.keyframes|;
    }
  }
}
