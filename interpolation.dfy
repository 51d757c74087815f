/**
 * The keyframe timeline: the animation parameters shown at a playhead time.
 *
 * The keyframes are stably sorted by timestamp on a copy, one left-to-right
 * scan finds the last keyframe at or before the time (`prev`) and the first
 * one after it (`next`), and the parameters are then taken from the only
 * bracketing keyframe, or blended: numbers linearly, booleans as a step at
 * t = 0.5 and the `#rrggbb` tint channel by channel with rounding.
 */
module Interpolation {
  import opened Base
  import opened Sorting
  import opened HexColor
  import opened AnimationModel

  /** `x` lies between `a` and `b`, whichever is larger. */
  predicate Between(x: real, a: real, b: real)
  {
    Min(a, b) <= x <= Max(a, b)
  }

  lemma ScaledBetween(d: real, t: real)
    requires 0.0 <= t <= 1.0
    ensures d >= 0.0 ==> 0.0 <= d * t <= d
    ensures d <= 0.0 ==> d <= d * t <= 0.0
  {
    if d >= 0.0 {
      assert d * t <= d * 1.0;
    } else {
      assert d * t >= d * 1.0;
    }
  }

  /** `lerp(a, b, t)` */
  function Lerp(a: real, b: real, t: real): (r: real)
    ensures t == 0.0 ==> r == a
    ensures t == 1.0 ==> r == b
    ensures 0.0 <= t <= 1.0 ==> Between(r, a, b)
  {
    if 0.0 <= t <= 1.0 then ScaledBetween(b - a, t); a + (b - a) * t
    else a + (b - a) * t
  }

  /** One colour channel: the rounded blend of two bytes, again a byte between them. */
  function LerpChannel(c1: int, c2: int, t: real): (c: int)
    requires IsByte(c1) && IsByte(c2) && 0.0 <= t <= 1.0
    ensures IsByte(c)
    ensures (c1 <= c2 ==> c1 <= c <= c2) && (c2 <= c1 ==> c2 <= c <= c1)
    ensures t == 0.0 ==> c == c1
    ensures t == 1.0 ==> c == c2
  {
    var x := Lerp(c1 as real, c2 as real, t);
    if c1 <= c2 then RoundBetween(x, c1, c2); Round(x)
    else RoundBetween(x, c2, c1); Round(x)
  }

  /** `lerpColor(color1, color2, t)` */
  function LerpColor(color1: string, color2: string, t: real): (r: string)
    requires IsColor(color1) && IsColor(color2) && 0.0 <= t <= 1.0
    ensures IsLowerColor(r) && IsColor(r)
    ensures var c1, c2, c := DecodeColor(color1), DecodeColor(color2), DecodeColor(r);
      && c.r == LerpChannel(c1.r, c2.r, t)
      && c.g == LerpChannel(c1.g, c2.g, t)
      && c.b == LerpChannel(c1.b, c2.b, t)
  {
    var c1 := DecodeColor(color1);
    var c2 := DecodeColor(color2);
    var c := Rgb(LerpChannel(c1.r, c2.r, t), LerpChannel(c1.g, c2.g, t), LerpChannel(c1.b, c2.b, t));
    EncodeDecode(c);
    EncodeColor(c)
  }

  /** Black to white at one half is mid grey: 127.5 rounds up to 128 = 0x80. */
  lemma LerpColorMidGrey()
    ensures LerpColor("#000000", "#ffffff", 0.5) == "#808080"
  {
    var black, white := "#000000", "#ffffff";
    assert IsColor(black) && IsColor(white);
    assert DecodeColor(black) == Rgb(0, 0, 0);
    assert DecodeColor(white) == Rgb(255, 255, 255);
    assert LerpChannel(0, 255, 0.5) == 128;
    assert ByteToHex(128) == "80";
  }

  /** The blend of two keyframes' parameters at fraction `t` (the object literal of the blend case). */
  function BlendSettings(p: KeyframeSettings, n: KeyframeSettings, t: real): (r: KeyframeSettings)
    requires IsColor(p.colorTint) && IsColor(n.colorTint) && 0.0 <= t <= 1.0
    ensures Between(r.rotationSpeed, p.rotationSpeed, n.rotationSpeed)
    ensures Between(r.rotationAxis.x, p.rotationAxis.x, n.rotationAxis.x)
    ensures Between(r.rotationAxis.y, p.rotationAxis.y, n.rotationAxis.y)
    ensures Between(r.rotationAxis.z, p.rotationAxis.z, n.rotationAxis.z)
    ensures Between(r.scale, p.scale, n.scale)
    ensures Between(r.positionX, p.positionX, n.positionX)
    ensures Between(r.positionY, p.positionY, n.positionY)
    ensures Between(r.positionZ, p.positionZ, n.positionZ)
    ensures Between(r.opacity, p.opacity, n.opacity)
    ensures Between(r.glowIntensity, p.glowIntensity, n.glowIntensity)
    ensures Between(r.shadowIntensity, p.shadowIntensity, n.shadowIntensity)
    ensures t == 0.0 ==> r == p.(colorTint := r.colorTint)
    ensures IsLowerColor(r.colorTint)
    ensures t < 0.5 ==> r.enableRotation == p.enableRotation && r.glowEnabled == p.glowEnabled
                        && r.particleTrailEnabled == p.particleTrailEnabled
    ensures t >= 0.5 ==> r.enableRotation == n.enableRotation && r.glowEnabled == n.glowEnabled
                         && r.particleTrailEnabled == n.particleTrailEnabled
  {
    KeyframeSettings(
      rotationSpeed := Lerp(p.rotationSpeed, n.rotationSpeed, t),
      rotationAxis := Axis(
        Lerp(p.rotationAxis.x, n.rotationAxis.x, t),
        Lerp(p.rotationAxis.y, n.rotationAxis.y, t),
        Lerp(p.rotationAxis.z, n.rotationAxis.z, t)),
      scale := Lerp(p.scale, n.scale, t),
      enableRotation := if t < 0.5 then p.enableRotation else n.enableRotation,
      positionX := Lerp(p.positionX, n.positionX, t),
      positionY := Lerp(p.positionY, n.positionY, t),
      positionZ := Lerp(p.positionZ, n.positionZ, t),
      opacity := Lerp(p.opacity, n.opacity, t),
      colorTint := LerpColor(p.colorTint, n.colorTint, t),
      glowEnabled := if t < 0.5 then p.glowEnabled else n.glowEnabled,
      glowIntensity := Lerp(p.glowIntensity, n.glowIntensity, t),
      particleTrailEnabled := if t < 0.5 then p.particleTrailEnabled else n.particleTrailEnabled,
      shadowIntensity := Lerp(p.shadowIntensity, n.shadowIntensity, t))
  }

  /**
   * Where the scan over `ks` stops: the index of the first keyframe later
   * than `time`, or |ks| when there is none. Everything before it is at or
   * before `time`.
   */
  function FirstLaterThan(ks: seq<Keyframe>, time: real): (j: nat)
    ensures j <= |ks|
    ensures forall i :: 0 <= i < j ==> ks[i].timestamp <= time
    ensures j < |ks| ==> ks[j].timestamp > time
  {
    if ks == [] || ks[0].timestamp > time then 0
    else 1 + FirstLaterThan(ks[1..], time)
  }

  /** The keyframes in the order the timeline scans them. */
  function SortedKeyframes(ks: seq<Keyframe>): seq<Keyframe>
  {
    SortBy(ks, Timestamp)
  }

  lemma SortedKeyframesFacts(ks: seq<Keyframe>)
    ensures |SortedKeyframes(ks)| == |ks|
    ensures multiset(SortedKeyframes(ks)) == multiset(ks)
    ensures SortedBy(SortedKeyframes(ks), Timestamp)
    ensures forall k :: k in SortedKeyframes(ks) <==> k in ks
  {
    SortByPermutation(ks, Timestamp);
    SortBySorted(ks, Timestamp);
    var s := SortedKeyframes(ks);
    forall k
      ensures k in s <==> k in ks
    {
      assert k in s <==> k in multiset(s);
      assert k in ks <==> k in multiset(ks);
    }
  }

  /** The blend fraction between `prev` and `next` at `time`. */
  function BlendFactor(prev: Keyframe, next: Keyframe, time: real): real
    requires prev.timestamp < next.timestamp
  {
    (time - prev.timestamp) / (next.timestamp - prev.timestamp)
  }

  lemma BlendFactorRange(prev: Keyframe, next: Keyframe, time: real)
    requires prev.timestamp <= time < next.timestamp
    ensures 0.0 <= BlendFactor(prev, next, time) < 1.0
    ensures time == prev.timestamp ==> BlendFactor(prev, next, time) == 0.0
  {
    var num, den := time - prev.timestamp, next.timestamp - prev.timestamp;
    assert 0.0 <= num < den;
    assert num / den < 1.0 by {
      assert num / den * den == num;
    }
  }

  /** The blend fraction scales the gap between the keyframes to the time elapsed since `prev`. */
  lemma BlendFactorScales(prev: Keyframe, next: Keyframe, time: real)
    requires prev.timestamp < next.timestamp
    ensures BlendFactor(prev, next, time) * (next.timestamp - prev.timestamp) == time - prev.timestamp
  {
  }

  /**
   * The parameters read off a sorted, non-empty keyframe list at `time`,
   * given where the scan stops: before the first keyframe its parameters,
   * after the last one the last one's, otherwise the blend of the pair
   * around the stopping point.
   */
  function PickFromSorted(settings: AnimationSettings, ks: seq<Keyframe>, time: real): (r: AnimationSettings)
    requires ks != [] && ValidTints(ks)
    ensures r == settings.(visual := r.visual)
  {
    var j := FirstLaterThan(ks, time);
    if j == 0 then settings.(visual := ks[0].settings)
    else if j == |ks| then settings.(visual := ks[|ks| - 1].settings)
    else
      var prev, next := ks[j - 1], ks[j];
      BlendFactorRange(prev, next, time);
      settings.(visual := BlendSettings(prev.settings, next.settings, BlendFactor(prev, next, time)))
  }

  lemma SortedValidTints(ks: seq<Keyframe>)
    requires ValidTints(ks)
    ensures ValidTints(SortedKeyframes(ks))
  {
    SortedKeyframesFacts(ks);
  }

  /** `interpolateSettings(settings, currentTime)`, as a function. */
  function Interpolate(settings: AnimationSettings, time: real): (r: AnimationSettings)
    requires ValidTints(settings.keyframes)
    ensures r.keyframes == settings.keyframes
    ensures r.duration == settings.duration && r.renderMode == settings.renderMode
    ensures settings.keyframes == [] ==> r == settings
  {
    if settings.keyframes == [] then settings
    else
      SortedValidTints(settings.keyframes);
      PickFromSorted(settings, SortedKeyframes(settings.keyframes), time)
  }

  /** A non-empty list is interpolated by reading its sorted copy. */
  lemma InterpolateIsPick(settings: AnimationSettings, time: real)
    requires ValidTints(settings.keyframes) && settings.keyframes != []
    ensures ValidTints(SortedKeyframes(settings.keyframes))
    ensures Interpolate(settings, time) == PickFromSorted(settings, SortedKeyframes(settings.keyframes), time)
  {
    SortedValidTints(settings.keyframes);
  }

  /** Where the scan stops at an end, the parameters are those of that end's keyframe. */
  lemma PickAtEnds(settings: AnimationSettings, s: seq<Keyframe>, time: real)
    requires s != [] && ValidTints(s)
    ensures FirstLaterThan(s, time) == 0 ==> PickFromSorted(settings, s, time) == settings.(visual := s[0].settings)
    ensures FirstLaterThan(s, time) == |s| ==> PickFromSorted(settings, s, time) == settings.(visual := s[|s| - 1].settings)
  {
  }

  /** `interpolateSettings`: a scan over a sorted copy that stops at the first later keyframe. */
  method InterpolateSettings(settings: AnimationSettings, currentTime: real) returns (r: AnimationSettings)
    requires ValidTints(settings.keyframes)
    ensures r == Interpolate(settings, currentTime)
  {
    var keyframes := settings.keyframes;
    if |keyframes| == 0 {
      return settings;
    }
    SortedValidTints(keyframes);
    var sortedKeyframes := SortedKeyframes(keyframes);
    ghost var stop := FirstLaterThan(sortedKeyframes, currentTime);

    var prevKeyframe: Option<Keyframe> := None;
    var nextKeyframe: Option<Keyframe> := None;
    var i := 0;
    while i < |sortedKeyframes|
      invariant 0 <= i <= stop
      invariant nextKeyframe == None
      invariant prevKeyframe == if i == 0 then None else Some(sortedKeyframes[i - 1])
    {
      if sortedKeyframes[i].timestamp <= currentTime {
        prevKeyframe := Some(sortedKeyframes[i]);
      }
      if sortedKeyframes[i].timestamp > currentTime && nextKeyframe.None? {
        nextKeyframe := Some(sortedKeyframes[i]);
        break;
      }
      i := i + 1;
    }
    assert nextKeyframe.Some? ==> i == stop && nextKeyframe.value == sortedKeyframes[stop];
    assert nextKeyframe.None? ==> stop == |sortedKeyframes|;
    InterpolateIsPick(settings, currentTime);
    PickAtEnds(settings, sortedKeyframes, currentTime);

    if prevKeyframe.None? {
      // before the first keyframe
      r := settings.(visual := nextKeyframe.value.settings);
    } else if nextKeyframe.None? {
      // at or after the last keyframe
      r := settings.(visual := prevKeyframe.value.settings);
    } else {
      var prev, next := prevKeyframe.value, nextKeyframe.value;
      assert prev == sortedKeyframes[stop - 1] && next == sortedKeyframes[stop];
      PickBlends(settings, sortedKeyframes, currentTime);
      var t := BlendFactor(prev, next, currentTime);
      r := settings.(visual := BlendSettings(prev.settings, next.settings, t));
    }
  }

  // ----- characterisations of the result, stated without the sort -----

  /** The least timestamp of a non-empty keyframe list. */
  function MinTimestamp(ks: seq<Keyframe>): (m: real)
    requires ks != []
    ensures exists k :: k in ks && k.timestamp == m
    ensures forall k :: k in ks ==> m <= k.timestamp
  {
    if |ks| == 1 then ks[0].timestamp
    else
      var rest := MinTimestamp(ks[1..]);
      assert forall k :: k in ks[1..] ==> k in ks;
      assert forall k :: k in ks ==> k == ks[0] || k in ks[1..];
      Min(ks[0].timestamp, rest)
  }

  /** The greatest timestamp of a non-empty keyframe list. */
  function MaxTimestamp(ks: seq<Keyframe>): (m: real)
    requires ks != []
    ensures exists k :: k in ks && k.timestamp == m
    ensures forall k :: k in ks ==> k.timestamp <= m
  {
    if |ks| == 1 then ks[0].timestamp
    else
      var rest := MaxTimestamp(ks[1..]);
      assert forall k :: k in ks[1..] ==> k in ks;
      assert forall k :: k in ks ==> k == ks[0] || k in ks[1..];
      Max(ks[0].timestamp, rest)
  }

  lemma {:induction false} WithKeyAppend(a: seq<Keyframe>, b: seq<Keyframe>, m: real)
    ensures WithKey(a + b, Timestamp, m) == WithKey(a, Timestamp, m) + WithKey(b, Timestamp, m)
  {
    if a != [] {
      WithKeyAppend(a[1..], b, m);
      assert (a + b)[0] == a[0] && (a + b)[1..] == a[1..] + b;
    } else {
      assert a + b == b;
    }
  }

  /** In the sorted list the first keyframe has the least timestamp and the last the greatest. */
  lemma SortedEnds(ks: seq<Keyframe>)
    requires ks != []
    ensures var s := SortedKeyframes(ks);
      && s[0].timestamp == MinTimestamp(ks)
      && s[|s| - 1].timestamp == MaxTimestamp(ks)
  {
    SortedFirst(ks);
    SortedLast(ks);
  }

  /** The first keyframe after sorting has the smallest timestamp. */
  lemma SortedFirst(ks: seq<Keyframe>)
    requires ks != []
    ensures SortedKeyframes(ks)[0].timestamp == MinTimestamp(ks)
  {
    SortedKeyframesFacts(ks);
    var s := SortedKeyframes(ks);
    assert s[0] in ks;
    var lo :| lo in ks && lo.timestamp == MinTimestamp(ks);
    assert lo in s;
    var i :| 0 <= i < |s| && s[i] == lo;
    if 0 < i {
      assert Timestamp(s[0]) <= Timestamp(s[i]);
    }
  }

  /** The last keyframe after sorting has the largest timestamp. */
  lemma SortedLast(ks: seq<Keyframe>)
    requires ks != []
    ensures SortedKeyframes(ks)[|ks| - 1].timestamp == MaxTimestamp(ks)
  {
    SortedKeyframesFacts(ks);
    var s := SortedKeyframes(ks);
    assert s[|s| - 1] in ks;
    var hi :| hi in ks && hi.timestamp == MaxTimestamp(ks);
    assert hi in s;
    var j :| 0 <= j < |s| && s[j] == hi;
    if j < |s| - 1 {
      assert Timestamp(s[j]) <= Timestamp(s[|s| - 1]);
    }
  }

  /** The scan stops at 0 when the first keyframe is already later than `time`. */
  lemma ScanStopsAtStart(s: seq<Keyframe>, time: real)
    requires s != [] && s[0].timestamp > time
    ensures FirstLaterThan(s, time) == 0
  {
  }

  /** The scan runs to the end when no keyframe is later than `time`. */
  lemma ScanRunsToEnd(s: seq<Keyframe>, time: real)
    requires forall i :: 0 <= i < |s| ==> s[i].timestamp <= time
    ensures FirstLaterThan(s, time) == |s|
  {
  }

  lemma WithKeyFirst(s: seq<Keyframe>, m: real)
    requires s != [] && s[0].timestamp == m
    ensures WithKey(s, Timestamp, m) != [] && WithKey(s, Timestamp, m)[0] == s[0]
  {
  }

  lemma WithKeyLast(s: seq<Keyframe>, m: real)
    requires s != [] && s[|s| - 1].timestamp == m
    ensures var w := WithKey(s, Timestamp, m); w != [] && w[|w| - 1] == s[|s| - 1]
  {
    var n := |s|;
    assert s == s[..n - 1] + [s[n - 1]];
    WithKeyAppend(s[..n - 1], [s[n - 1]], m);
    assert WithKey([s[n - 1]], Timestamp, m) == [s[n - 1]];
  }

  /**
   * Before every keyframe the parameters are those of the earliest keyframe;
   * of several sharing the earliest timestamp, the first in the list.
   */
  lemma InterpolateBeforeFirst(settings: AnimationSettings, time: real)
    requires ValidTints(settings.keyframes) && settings.keyframes != []
    requires forall k :: k in settings.keyframes ==> time < k.timestamp
    ensures var m := MinTimestamp(settings.keyframes);
      var earliest := WithKey(settings.keyframes, Timestamp, m);
      && earliest != []
      && Interpolate(settings, time) == settings.(visual := earliest[0].settings)
  {
    var ks := settings.keyframes;
    var m := MinTimestamp(ks);
    SortedKeyframesFacts(ks);
    SortedEnds(ks);
    var s := SortedKeyframes(ks);
    assert s[0] in ks;
    ScanStopsAtStart(s, time);
    SortByStable(ks, Timestamp, m);
    WithKeyFirst(s, m);
  }

  /**
   * At or after every keyframe the parameters are those of the latest
   * keyframe; of several sharing the latest timestamp, the last in the list.
   */
  lemma InterpolateAfterLast(settings: AnimationSettings, time: real)
    requires ValidTints(settings.keyframes) && settings.keyframes != []
    requires forall k :: k in settings.keyframes ==> k.timestamp <= time
    ensures var m := MaxTimestamp(settings.keyframes);
      var latest := WithKey(settings.keyframes, Timestamp, m);
      && latest != []
      && Interpolate(settings, time) == settings.(visual := latest[|latest| - 1].settings)
  {
    var ks := settings.keyframes;
    var m := MaxTimestamp(ks);
    SortedKeyframesFacts(ks);
    SortedEnds(ks);
    var s := SortedKeyframes(ks);
    forall i | 0 <= i < |s|
      ensures s[i].timestamp <= time
    {
      assert s[i] in ks;
    }
    ScanRunsToEnd(s, time);
    SortByStable(ks, Timestamp, m);
    WithKeyLast(s, m);
  }

  /**
   * `prev` is a latest keyframe at or before `time` and `next` an earliest
   * keyframe after it.
   */
  ghost predicate Brackets(ks: seq<Keyframe>, time: real, prev: Keyframe, next: Keyframe)
  {
    && prev in ks && next in ks
    && prev.timestamp <= time < next.timestamp
    && (forall k :: k in ks && k.timestamp <= time ==> k.timestamp <= prev.timestamp)
    && (forall k :: k in ks && k.timestamp > time ==> next.timestamp <= k.timestamp)
  }

  /** On a sorted list the scan stops between a bracketing pair. */
  lemma ScanBrackets(s: seq<Keyframe>, time: real)
    requires SortedBy(s, Timestamp)
    requires 0 < FirstLaterThan(s, time) < |s|
    ensures var j := FirstLaterThan(s, time); Brackets(s, time, s[j - 1], s[j])
  {
    var j := FirstLaterThan(s, time);
    forall k | k in s
      ensures k.timestamp <= time ==> k.timestamp <= s[j - 1].timestamp
      ensures k.timestamp > time ==> s[j].timestamp <= k.timestamp
    {
      var i :| 0 <= i < |s| && s[i] == k;
      ScanBracketsAt(s, time, i);
    }
  }

  /** One position of a sorted list lies on its side of the scan's stopping point. */
  lemma ScanBracketsAt(s: seq<Keyframe>, time: real, i: nat)
    requires SortedBy(s, Timestamp)
    requires 0 < FirstLaterThan(s, time) < |s| && i < |s|
    ensures var j := FirstLaterThan(s, time);
      && (s[i].timestamp <= time ==> s[i].timestamp <= s[j - 1].timestamp)
      && (s[i].timestamp > time ==> s[j].timestamp <= s[i].timestamp)
  {
    var j := FirstLaterThan(s, time);
    if i >= j {
      assert Timestamp(s[j]) <= Timestamp(s[i]);
    } else if i < j - 1 {
      assert Timestamp(s[i]) <= Timestamp(s[j - 1]);
    }
  }

  /** With keyframes on both sides of `time`, the scan of the sorted list stops strictly inside it. */
  lemma ScanStopsInside(s: seq<Keyframe>, time: real, before: Keyframe, after: Keyframe)
    requires SortedBy(s, Timestamp)
    requires before in s && before.timestamp <= time
    requires after in s && after.timestamp > time
    ensures 0 < FirstLaterThan(s, time) < |s|
  {
    var a :| 0 <= a < |s| && s[a] == after;
    var b :| 0 <= b < |s| && s[b] == before;
    assert FirstLaterThan(s, time) <= a;
    assert Timestamp(s[0]) <= Timestamp(s[b]);
  }

  /** Brackets depend only on which keyframes there are, not on their order. */
  lemma BracketsSameMembers(s: seq<Keyframe>, ks: seq<Keyframe>, time: real, prev: Keyframe, next: Keyframe)
    requires forall k :: k in s <==> k in ks
    requires Brackets(s, time, prev, next)
    ensures Brackets(ks, time, prev, next)
  {
  }

  /**
   * With keyframes on both sides of `time`, the result blends the bracketing
   * pair with a fraction in [0, 1): linear numbers, step booleans at 0.5.
   */
  lemma InterpolateBlends(settings: AnimationSettings, time: real, before: Keyframe, after: Keyframe)
    requires ValidTints(settings.keyframes)
    requires before in settings.keyframes && before.timestamp <= time
    requires after in settings.keyframes && after.timestamp > time
    ensures exists prev, next ::
      && Brackets(settings.keyframes, time, prev, next)
      && 0.0 <= BlendFactor(prev, next, time) < 1.0
      && Interpolate(settings, time)
         == settings.(visual := BlendSettings(prev.settings, next.settings, BlendFactor(prev, next, time)))
  {
    var ks := settings.keyframes;
    SortedKeyframesFacts(ks);
    var s := SortedKeyframes(ks);
    ScanStopsInside(s, time, before, after);
    var j := FirstLaterThan(s, time);
    ScanBrackets(s, time);
    var prev, next := s[j - 1], s[j];
    assert Brackets(s, time, prev, next);
    BracketsSameMembers(s, ks, time, prev, next);
    BlendFactorRange(prev, next, time);
    SortedValidTints(ks);
    PickBlends(settings, s, time);
    assert && Brackets(ks, time, prev, next)
           && 0.0 <= BlendFactor(prev, next, time) < 1.0
           && Interpolate(settings, time)
              == settings.(visual := BlendSettings(prev.settings, next.settings, BlendFactor(prev, next, time)));
  }

  lemma PickBlends(settings: AnimationSettings, s: seq<Keyframe>, time: real)
    requires s != [] && ValidTints(s)
    requires 0 < FirstLaterThan(s, time) < |s|
    ensures var j := FirstLaterThan(s, time);
      && s[j - 1].timestamp <= time < s[j].timestamp
      && IsColor(s[j - 1].settings.colorTint) && IsColor(s[j].settings.colorTint)
      && 0.0 <= BlendFactor(s[j - 1], s[j], time) < 1.0
      && PickFromSorted(settings, s, time)
         == settings.(visual := BlendSettings(s[j - 1].settings, s[j].settings, BlendFactor(s[j - 1], s[j], time)))
  {
    var j := FirstLaterThan(s, time);
    assert s[j - 1] in s && s[j] in s;
    BlendFactorRange(s[j - 1], s[j], time);
  }

  /**
   * With pairwise distinct timestamps the order of the keyframe list does
   * not matter: reordering it changes only the `keyframes` field echoed back.
   */
  lemma InterpolateOrderIndependent(s1: AnimationSettings, s2: AnimationSettings, time: real)
    requires ValidTints(s1.keyframes) && ValidTints(s2.keyframes)
    requires s2 == s1.(keyframes := s2.keyframes)
    requires multiset(s1.keyframes) == multiset(s2.keyframes)
    requires DistinctBy(s1.keyframes, Timestamp)
    ensures Interpolate(s2, time) == Interpolate(s1, time).(keyframes := s2.keyframes)
  {
    SortedKeyframesUnique(s1.keyframes, s2.keyframes);
    assert |s1.keyframes| == |s2.keyframes| by {
      assert |multiset(s1.keyframes)| == |s1.keyframes| && |multiset(s2.keyframes)| == |s2.keyframes|;
    }
  }

  /** Two orderings of one list of keyframes with distinct timestamps sort to the same list. */
  lemma SortedKeyframesUnique(k1: seq<Keyframe>, k2: seq<Keyframe>)
    requires multiset(k1) == multiset(k2)
    requires DistinctBy(k1, Timestamp)
    ensures SortedKeyframes(k1) == SortedKeyframes(k2)
  {
    DistinctPermutation(k1, k2);
    var t1, t2 := SortedKeyframes(k1), SortedKeyframes(k2);
    SortedKeyframesFacts(k1);
    SortedKeyframesFacts(k2);
    SortByDistinct(k1, Timestamp, Timestamp);
    SortByDistinct(k2, Timestamp, Timestamp);
    SortedDistinctIsStrict(t1, Timestamp);
    SortedDistinctIsStrict(t2, Timestamp);
    StrictlySortedUnique(t1, t2, Timestamp);
  }

  /** Two positions of a permutation of a list with distinct timestamps that share a timestamp hold the same keyframe. */
  lemma EqualTimestampSameKeyframe(k1: seq<Keyframe>, k2: seq<Keyframe>, i: nat, j: nat)
    requires multiset(k1) == multiset(k2) && DistinctBy(k1, Timestamp)
    requires i < |k2| && j < |k2|
    ensures k2[i].timestamp == k2[j].timestamp ==> k2[i] == k2[j]
  {
    assert k2[i] in multiset(k1) && k2[j] in multiset(k1);
    var a :| 0 <= a < |k1| && k1[a] == k2[i];
    var b :| 0 <= b < |k1| && k1[b] == k2[j];
    assert a < b ==> k1[a].timestamp != k1[b].timestamp;
    assert b < a ==> k1[b].timestamp != k1[a].timestamp;
  }

  /** A value at two positions occurs at least twice. */
  lemma TwoOccurrences(s: seq<Keyframe>, i: nat, j: nat)
    requires i < j < |s|
    ensures s[i] == s[j] ==> multiset(s)[s[i]] >= 2
  {
    assert s == s[..j] + [s[j]] + s[j + 1..];
    assert s[..j][i] == s[i];
    assert multiset(s) == multiset(s[..j]) + multiset{s[j]} + multiset(s[j + 1..]);
  }

  /** In a list with distinct timestamps each keyframe occurs at most once. */
  lemma MultiplicityAtMostOne(ks: seq<Keyframe>, x: Keyframe)
    requires DistinctBy(ks, Timestamp)
    ensures multiset(ks)[x] <= 1
  {
    if x in ks {
      var a :| 0 <= a < |ks| && ks[a] == x;
      assert ks == ks[..a] + [x] + ks[a + 1..];
      forall b | 0 <= b < a
        ensures ks[..a][b] != x
      {
        assert ks[b].timestamp != ks[a].timestamp;
      }
      forall b | a < b < |ks|
        ensures ks[b] != x
      {
        assert ks[a].timestamp != ks[b].timestamp;
      }
      assert x !in ks[..a] && x !in ks[a + 1..];
      assert multiset(ks) == multiset(ks[..a]) + multiset{x} + multiset(ks[a + 1..]);
    }
  }

  /** Distinct timestamps survive a permutation. */
  lemma DistinctPermutation(k1: seq<Keyframe>, k2: seq<Keyframe>)
    requires multiset(k1) == multiset(k2) && DistinctBy(k1, Timestamp)
    ensures DistinctBy(k2, Timestamp)
  {
    forall i, j | 0 <= i < j < |k2|
      ensures k2[i].timestamp != k2[j].timestamp
    {
      EqualTimestampSameKeyframe(k1, k2, i, j);
      TwoOccurrences(k2, i, j);
      MultiplicityAtMostOne(k1, k2[i]);
    }
  }

  /**
   * Two keyframes at 0 s and 5 s with scale 0.5 and 1.5: at 2.5 s the scale
   * is 1.0; at 2.4 s the booleans are still the first keyframe's and at
   * 2.5 s they are the second's.
   */
  lemma TwoKeyframeScenario(base: AnimationSettings, a: KeyframeSettings, b: KeyframeSettings)
    requires IsColor(a.colorTint) && IsColor(b.colorTint)
    requires a.scale == 0.5 && b.scale == 1.5
    requires base.keyframes == [Keyframe("a", 0.0, a), Keyframe("b", 5.0, b)]
    ensures Interpolate(base, 2.5).visual.scale == 1.0
    ensures Interpolate(base, 2.4).visual.enableRotation == a.enableRotation
    ensures Interpolate(base, 2.5).visual.enableRotation == b.enableRotation
  {
    var ka, kb := Keyframe("a", 0.0, a), Keyframe("b", 5.0, b);
    TwoKeyframeBlend(base, a, b, 2.5);
    TwoKeyframeBlend(base, a, b, 2.4);
    ScenarioFactors(ka, kb);
    assert BlendSettings(a, b, 0.5).scale == Lerp(0.5, 1.5, 0.5) == 1.0;
  }

  /** Between keyframes at 0 s and 5 s, 2.5 s is halfway and 2.4 s is short of it. */
  lemma ScenarioFactors(ka: Keyframe, kb: Keyframe)
    requires ka.timestamp == 0.0 && kb.timestamp == 5.0
    ensures BlendFactor(ka, kb, 2.5) == 0.5 && BlendFactor(ka, kb, 2.4) < 0.5
  {
    BlendFactorScales(ka, kb, 2.5);
    BlendFactorScales(ka, kb, 2.4);
  }

  /** Between two keyframes at 0 s and 5 s, the parameters are their blend. */
  lemma TwoKeyframeBlend(base: AnimationSettings, a: KeyframeSettings, b: KeyframeSettings, time: real)
    requires IsColor(a.colorTint) && IsColor(b.colorTint)
    requires base.keyframes == [Keyframe("a", 0.0, a), Keyframe("b", 5.0, b)]
    requires 0.0 <= time < 5.0
    ensures 0.0 <= BlendFactor(Keyframe("a", 0.0, a), Keyframe("b", 5.0, b), time) < 1.0
    ensures Interpolate(base, time).visual
      == BlendSettings(a, b, BlendFactor(Keyframe("a", 0.0, a), Keyframe("b", 5.0, b), time))
  {
    var ka, kb := Keyframe("a", 0.0, a), Keyframe("b", 5.0, b);
    assert SortedKeyframes(base.keyframes) == [ka, kb] by {
      assert base.keyframes[1..] == [kb];
      assert SortBy([kb], Timestamp) == [kb];
      assert Insert(ka, [kb], Timestamp) == [ka, kb];
    }
    assert FirstLaterThan([ka, kb], time) == 1 by {
      assert [ka, kb][1..] == [kb];
    }
    InterpolateIsPick(base, time);
    PickBlends(base, [ka, kb], time);
  }
}
