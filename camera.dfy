/**
 * The camera path: a list of camera keyframes kept sorted by time, a
 * selection and a recording flag, and the camera pose at a playhead time.
 *
 * Every store operation either sorts, filters or empties the list, so the
 * list stays sorted by `time`; `Valid` states that invariant. The pose
 * query scans the list without sorting it and blends the bracketing pair
 * with the cubic ease. It compares the two found keyframes by identity
 * (`prevKf === nextKf`), so the model tracks them by list index.
 */
module CameraAnimation {
  import opened Base
  import opened Sorting
  import opened CameraInterpolation
  import Interpolation

  /** A camera keyframe without its id (`Omit<CameraKeyframe, 'id'>`). */
  datatype CameraPose = CameraPose(time: real, position: Vec3, rotation: Vec3, fov: real)

  datatype CameraKeyframe = CameraKeyframe(id: string, time: real, position: Vec3, rotation: Vec3, fov: real)

  datatype RecordingState = Idle | Recording

  /** `Partial<Omit<CameraKeyframe, 'id'>>`: the fields an update sets. */
  datatype CameraUpdates = CameraUpdates(
    time: Option<real>, position: Option<Vec3>, rotation: Option<Vec3>, fov: Option<real>)

  function CameraTime(k: CameraKeyframe): real { k.time }

  function CameraId(k: CameraKeyframe): string { k.id }

  function WithId(p: CameraPose, id: string): (k: CameraKeyframe)
    ensures k.id == id && k.time == p.time && k.position == p.position
    ensures k.rotation == p.rotation && k.fov == p.fov
  {
    CameraKeyframe(id, p.time, p.position, p.rotation, p.fov)
  }

  /** `{ ...kf, ...updates }`: each given field replaces the keyframe's, the id is kept. */
  function Merge(k: CameraKeyframe, u: CameraUpdates): (r: CameraKeyframe)
    ensures r.id == k.id
    ensures r.time == (if u.time.Some? then u.time.value else k.time)
    ensures r.position == (if u.position.Some? then u.position.value else k.position)
    ensures r.rotation == (if u.rotation.Some? then u.rotation.value else k.rotation)
    ensures r.fov == (if u.fov.Some? then u.fov.value else k.fov)
  {
    CameraKeyframe(
      k.id,
      if u.time.Some? then u.time.value else k.time,
      if u.position.Some? then u.position.value else k.position,
      if u.rotation.Some? then u.rotation.value else k.rotation,
      if u.fov.Some? then u.fov.value else k.fov)
  }

  // ----- the list operations -----

  /** `[...keyframes, kf].sort(byTime)` */
  function AddedKeyframes(ks: seq<CameraKeyframe>, kf: CameraKeyframe): (r: seq<CameraKeyframe>)
    ensures SortedBy(r, CameraTime)
    ensures multiset(r) == multiset(ks) + multiset{kf}
    ensures |r| == |ks| + 1 && kf in r
  {
    SortBySorted(ks + [kf], CameraTime);
    SortByPermutation(ks + [kf], CameraTime);
    var r := SortBy(ks + [kf], CameraTime);
    assert kf in multiset(r);
    r
  }

  /** `keyframes.map(kf => kf.id === id ? { ...kf, ...updates } : kf)` */
  function UpdateMatching(ks: seq<CameraKeyframe>, id: string, u: CameraUpdates): (r: seq<CameraKeyframe>)
    ensures |r| == |ks|
    ensures forall i :: 0 <= i < |ks| ==> r[i] == if ks[i].id == id then Merge(ks[i], u) else ks[i]
  {
    seq(|ks|, i requires 0 <= i < |ks| => if ks[i].id == id then Merge(ks[i], u) else ks[i])
  }

  /** The update followed by the sort. */
  function UpdatedKeyframes(ks: seq<CameraKeyframe>, id: string, u: CameraUpdates): (r: seq<CameraKeyframe>)
    ensures SortedBy(r, CameraTime)
    ensures multiset(r) == multiset(UpdateMatching(ks, id, u))
    ensures |r| == |ks|
  {
    SortBySorted(UpdateMatching(ks, id, u), CameraTime);
    SortByPermutation(UpdateMatching(ks, id, u), CameraTime);
    SortBy(UpdateMatching(ks, id, u), CameraTime)
  }

  /** `keyframes.filter(kf => kf.id !== id)` */
  function DeletedKeyframes(ks: seq<CameraKeyframe>, id: string): (r: seq<CameraKeyframe>)
    ensures forall k :: k in r <==> k in ks && k.id != id
    ensures |r| <= |ks|
  {
    Filter(ks, (k: CameraKeyframe) => k.id != id)
  }

  /** Deleting from a sorted list leaves it sorted. */
  lemma DeleteKeepsOrder(ks: seq<CameraKeyframe>, id: string)
    requires SortedBy(ks, CameraTime)
    ensures SortedBy(DeletedKeyframes(ks, id), CameraTime)
  {
    FilterSorted(ks, (k: CameraKeyframe) => k.id != id, CameraTime);
  }

  /** `cam-kf-preset-<stamp>-<i>` */
  function PresetId(stamp: string, i: nat): string
  {
    "cam-kf-preset-" + stamp + "-" + Decimal(i)
  }

  lemma PresetIdInjective(stamp: string, i: nat, j: nat)
    requires i != j
    ensures PresetId(stamp, i) != PresetId(stamp, j)
  {
    var prefix := "cam-kf-preset-" + stamp + "-";
    DecimalInjective(i, j);
    assert (prefix + Decimal(i))[|prefix|..] == Decimal(i);
    assert (prefix + Decimal(j))[|prefix|..] == Decimal(j);
  }

  /** `keyframes.map((kf, i) => ({ ...kf, id: presetId(i) }))`: index-suffixed ids. */
  function StampPresets(presets: seq<CameraPose>, stamp: string): (r: seq<CameraKeyframe>)
    ensures |r| == |presets|
    ensures forall i :: 0 <= i < |r| ==> r[i] == WithId(presets[i], PresetId(stamp, i))
    ensures DistinctBy(r, CameraId)
  {
    var r := seq(|presets|, i requires 0 <= i < |presets| => WithId(presets[i], PresetId(stamp, i)));
    forall i, j | 0 <= i < j < |r|
      ensures CameraId(r[i]) != CameraId(r[j])
    {
      PresetIdInjective(stamp, i, j);
    }
    r
  }

  /** The preset list with index-suffixed ids, sorted by time. */
  function PresetKeyframes(presets: seq<CameraPose>, stamp: string): (r: seq<CameraKeyframe>)
    ensures SortedBy(r, CameraTime)
    ensures multiset(r) == multiset(StampPresets(presets, stamp))
    ensures |r| == |presets|
    ensures DistinctBy(r, CameraId)
  {
    var stamped := StampPresets(presets, stamp);
    SortBySorted(stamped, CameraTime);
    SortByPermutation(stamped, CameraTime);
    SortByDistinct(stamped, CameraTime, CameraId);
    SortBy(stamped, CameraTime)
  }

  // ----- the pose at a time -----

  /** The first index whose time is at or after `time` (where the scan breaks), or |ks|. */
  function FirstAtOrAfter(ks: seq<CameraKeyframe>, time: real): (j: nat)
    ensures j <= |ks|
    ensures forall i :: 0 <= i < j ==> ks[i].time < time
    ensures j < |ks| ==> ks[j].time >= time
  {
    if ks == [] || ks[0].time >= time then 0
    else 1 + FirstAtOrAfter(ks[1..], time)
  }

  /** The last index below `n` whose time is at or before `time`, if any. */
  function LastAtOrBefore(ks: seq<CameraKeyframe>, time: real, n: nat): (p: Option<nat>)
    requires n <= |ks|
    ensures p.Some? ==> p.value < n && ks[p.value].time <= time
    ensures p.Some? ==> forall i :: p.value < i < n ==> ks[i].time > time
    ensures p.None? ==> forall i :: 0 <= i < n ==> ks[i].time > time
  {
    if n == 0 then None
    else if ks[n - 1].time <= time then Some(n - 1)
    else LastAtOrBefore(ks, time, n - 1)
  }

  /** The eased blend of two keyframes strictly around `time`. */
  function BlendCamera(prev: CameraKeyframe, next: CameraKeyframe, time: real): (r: CameraKeyframe)
    requires prev.time < time < next.time
    ensures r.id == "interpolated" && r.time == time
    ensures var e := EaseInOutCubic((time - prev.time) / (next.time - prev.time));
      && 0.0 < (time - prev.time) / (next.time - prev.time) < 1.0
      && 0.0 <= e <= 1.0
      && r.position == LerpVec(prev.position, next.position, e)
      && r.rotation == LerpVec(prev.rotation, next.rotation, e)
      && r.fov == ThreeLerp(prev.fov, next.fov, e)
      && Interpolation.Between(r.fov, prev.fov, next.fov)
  {
    var num, den := time - prev.time, next.time - prev.time;
    UnitFraction(num, den);
    var t := num / den;
    CubicRange(t);
    var e := EaseInOutCubic(t);
    CameraKeyframe("interpolated", time,
      LerpVec(prev.position, next.position, e),
      LerpVec(prev.rotation, next.rotation, e),
      ThreeLerp(prev.fov, next.fov, e))
  }

  /** `interpolateCameraState(time)` over the list `ks`, as a function. */
  function CameraStateAt(ks: seq<CameraKeyframe>, time: real): (r: Option<CameraKeyframe>)
    ensures r.None? <==> ks == []
    ensures |ks| == 1 ==> r == Some(ks[0])
  {
    if |ks| == 0 then None
    else if |ks| == 1 then Some(ks[0])
    else
      var j := FirstAtOrAfter(ks, time);
      var p := LastAtOrBefore(ks, time, if j < |ks| then j + 1 else |ks|);
      if p.None? then Some(ks[0])
      else if j == |ks| then Some(ks[|ks| - 1])
      else if p.value == j then Some(ks[j])
      else Some(BlendCamera(ks[p.value], ks[j], time))
  }

  /** The camera path store of the editor (`useCameraAnimation`). */
  class CameraPath {
    var keyframes: seq<CameraKeyframe>
    var recordingState: RecordingState
    var selectedKeyframeId: Option<string>

    /** The keyframe list is sorted by time. */
    ghost predicate Valid()
      reads this
    {
      SortedBy(keyframes, CameraTime)
    }

    constructor()
      ensures Valid()
      ensures keyframes == [] && recordingState == Idle && selectedKeyframeId == None
    {
      keyframes := [];
      recordingState := Idle;
      selectedKeyframeId := None;
    }

    /** `startRecording` */
    method StartRecording()
      modifies this
      requires Valid()
      ensures Valid()
      ensures recordingState == Recording
      ensures keyframes == old(keyframes) && selectedKeyframeId == old(selectedKeyframeId)
    {
      recordingState := Recording;
    }

    /** `stopRecording` */
    method StopRecording()
      modifies this
      requires Valid()
      ensures Valid()
      ensures recordingState == Idle
      ensures keyframes == old(keyframes) && selectedKeyframeId == old(selectedKeyframeId)
    {
      recordingState := Idle;
    }

    /** `addKeyframe(keyframe)`, with the `Date.now()` text passed as `stamp`. */
    method AddKeyframe(pose: CameraPose, stamp: string) returns (id: string)
      modifies this
      requires Valid()
      ensures Valid()
      ensures id == "cam-kf-" + stamp
      ensures keyframes == AddedKeyframes(old(keyframes), WithId(pose, id))
      ensures |keyframes| == |old(keyframes)| + 1 && WithId(pose, id) in keyframes
      ensures multiset(keyframes) == multiset(old(keyframes)) + multiset{WithId(pose, id)}
      ensures recordingState == old(recordingState) && selectedKeyframeId == old(selectedKeyframeId)
    {
      id := "cam-kf-" + stamp;
      keyframes := AddedKeyframes(keyframes, WithId(pose, id));
    }

    /** `updateKeyframe(id, updates)` */
    method UpdateKeyframe(id: string, updates: CameraUpdates)
      modifies this
      requires Valid()
      ensures Valid()
      ensures keyframes == UpdatedKeyframes(old(keyframes), id, updates)
      ensures multiset(keyframes) == multiset(UpdateMatching(old(keyframes), id, updates))
      ensures |keyframes| == |old(keyframes)|
      ensures recordingState == old(recordingState) && selectedKeyframeId == old(selectedKeyframeId)
    {
      keyframes := UpdatedKeyframes(keyframes, id, updates);
    }

    /** `deleteKeyframe(id)` */
    method DeleteKeyframe(id: string)
      modifies this
      requires Valid()
      ensures Valid()
      ensures keyframes == DeletedKeyframes(old(keyframes), id)
      ensures forall k :: k in keyframes <==> k in old(keyframes) && k.id != id
      ensures selectedKeyframeId == if old(selectedKeyframeId) == Some(id) then None else old(selectedKeyframeId)
      ensures recordingState == old(recordingState)
    {
      DeleteKeepsOrder(keyframes, id);
      keyframes := DeletedKeyframes(keyframes, id);
      if selectedKeyframeId == Some(id) {
        selectedKeyframeId := None;
      }
    }

    /** `clearPath` */
    method ClearPath()
      modifies this
      requires Valid()
      ensures Valid()
      ensures keyframes == [] && selectedKeyframeId == None
      ensures recordingState == old(recordingState)
    {
      keyframes := [];
      selectedKeyframeId := None;
    }

    /** `setSelectedKeyframeId(id)` */
    method SetSelectedKeyframeId(id: Option<string>)
      modifies this
      requires Valid()
      ensures Valid()
      ensures selectedKeyframeId == id
      ensures keyframes == old(keyframes) && recordingState == old(recordingState)
    {
      selectedKeyframeId := id;
    }

    /** `applyPresetKeyframes(keyframes)`, with the `Date.now()` text passed as `stamp`. */
    method ApplyPresetKeyframes(presets: seq<CameraPose>, stamp: string)
      modifies this
      requires Valid()
      ensures Valid()
      ensures keyframes == PresetKeyframes(presets, stamp)
      ensures |keyframes| == |presets| && DistinctBy(keyframes, CameraId)
      ensures recordingState == old(recordingState) && selectedKeyframeId == old(selectedKeyframeId)
    {
      keyframes := PresetKeyframes(presets, stamp);
    }

    /** `interpolateCameraState(time)`: the scan stops at the first keyframe at or after `time`. */
    method InterpolateCameraState(time: real) returns (r: Option<CameraKeyframe>)
      ensures r == CameraStateAt(keyframes, time)
    {
      var ks := keyframes;
      if |ks| == 0 {
        return None;
      }
      if |ks| == 1 {
        return Some(ks[0]);
      }
      ghost var stop := FirstAtOrAfter(ks, time);
      // the indices of `prevKf` and `nextKf`
      var prevIndex: Option<nat> := None;
      var nextIndex: Option<nat> := None;
      var i := 0;
      while i < |ks|
        invariant 0 <= i <= stop
        invariant nextIndex == None
        invariant prevIndex == LastAtOrBefore(ks, time, i)
      {
        if ks[i].time <= time {
          prevIndex := Some(i);
        }
        if ks[i].time >= time && nextIndex.None? {
          nextIndex := Some(i);
          break;
        }
        i := i + 1;
      }
      assert nextIndex.Some? ==> nextIndex.value == stop && prevIndex == LastAtOrBefore(ks, time, stop + 1);
      assert nextIndex.None? ==> stop == |ks| && prevIndex == LastAtOrBefore(ks, time, |ks|);

      if prevIndex.None? {
        r := Some(ks[0]);
      } else if nextIndex.None? {
        r := Some(ks[|ks| - 1]);
      } else if prevIndex.value == nextIndex.value {
        r := Some(ks[prevIndex.value]);
      } else {
        var prevKf, nextKf := ks[prevIndex.value], ks[nextIndex.value];
        r := Some(BlendCamera(prevKf, nextKf, time));
      }
    }
  }

  // ----- what the pose query returns -----

  /** A single keyframe is the pose at every time. */
  lemma SingleKeyframePose(k: CameraKeyframe, time: real)
    ensures CameraStateAt([k], time) == Some(k)
  {
  }

  /** On a sorted path, a time before the first keyframe gives the first keyframe. */
  lemma PoseBeforePath(ks: seq<CameraKeyframe>, time: real)
    requires SortedBy(ks, CameraTime) && ks != []
    requires time < ks[0].time
    ensures CameraStateAt(ks, time) == Some(ks[0])
  {
    if |ks| > 1 {
      assert FirstAtOrAfter(ks, time) == 0;
      assert LastAtOrBefore(ks, time, 1) == None;
    }
  }

  /** A time after every keyframe gives the last keyframe; this holds for any order. */
  lemma PoseAfterPath(ks: seq<CameraKeyframe>, time: real)
    requires ks != []
    requires forall k :: k in ks ==> k.time < time
    ensures CameraStateAt(ks, time) == Some(ks[|ks| - 1])
  {
    if |ks| > 1 {
      forall i | 0 <= i < |ks|
        ensures ks[i].time < time
      {
        assert ks[i] in ks;
      }
      assert LastAtOrBefore(ks, time, |ks|) == Some(|ks| - 1);
    }
  }

  /**
   * On a sorted path, a time equal to a keyframe's gives a keyframe at
   * exactly that time: the first one with that time.
   */
  lemma PoseAtKeyframe(ks: seq<CameraKeyframe>, m: nat)
    requires SortedBy(ks, CameraTime) && m < |ks|
    ensures var j := FirstAtOrAfter(ks, ks[m].time);
      && j <= m && ks[j].time == ks[m].time
      && CameraStateAt(ks, ks[m].time) == Some(ks[j])
  {
    var time := ks[m].time;
    var j := FirstAtOrAfter(ks, time);
    assert j <= m;
    assert ks[j].time <= ks[m].time;
    StateAtFirst(ks, time);
  }

  /** When the first keyframe at or after `time` is exactly at `time`, it is the pose. */
  lemma StateAtFirst(ks: seq<CameraKeyframe>, time: real)
    requires FirstAtOrAfter(ks, time) < |ks| && ks[FirstAtOrAfter(ks, time)].time == time
    ensures CameraStateAt(ks, time) == Some(ks[FirstAtOrAfter(ks, time)])
  {
    var j := FirstAtOrAfter(ks, time);
    if |ks| > 1 {
      assert LastAtOrBefore(ks, time, j + 1) == Some(j);
    }
  }

  /**
   * Strictly between two keyframes of a sorted path (and at no keyframe's
   * time), the pose is the eased blend of the latest earlier keyframe and
   * the earliest later one.
   */
  lemma PoseBetween(ks: seq<CameraKeyframe>, time: real, a: nat, b: nat)
    requires SortedBy(ks, CameraTime) && a < |ks| && b < |ks|
    requires ks[a].time < time < ks[b].time
    requires forall k :: k in ks ==> k.time != time
    ensures var j := FirstAtOrAfter(ks, time);
      && 0 < j < |ks|
      && ks[j - 1].time < time < ks[j].time
      && (forall k :: k in ks && k.time < time ==> k.time <= ks[j - 1].time)
      && (forall k :: k in ks && k.time > time ==> ks[j].time <= k.time)
      && CameraStateAt(ks, time) == Some(BlendCamera(ks[j - 1], ks[j], time))
  {
    CameraScanStopsInside(ks, time, a, b);
    var j := FirstAtOrAfter(ks, time);
    forall k | k in ks
      ensures k.time < time ==> k.time <= ks[j - 1].time
      ensures k.time > time ==> ks[j].time <= k.time
    {
      var i :| 0 <= i < |ks| && ks[i] == k;
      CameraBracketsAt(ks, time, i);
    }
    StateBetween(ks, time);
  }

  /** With keyframes strictly on both sides of `time`, the scan stops strictly inside the list. */
  lemma CameraScanStopsInside(ks: seq<CameraKeyframe>, time: real, a: nat, b: nat)
    requires SortedBy(ks, CameraTime) && a < |ks| && b < |ks|
    requires ks[a].time < time < ks[b].time
    requires forall k :: k in ks ==> k.time != time
    ensures var j := FirstAtOrAfter(ks, time); 0 < j < |ks| && ks[j - 1].time < time < ks[j].time
  {
    var j := FirstAtOrAfter(ks, time);
    assert j <= b;
    assert CameraTime(ks[0]) <= CameraTime(ks[a]);
    assert ks[j] in ks;
  }

  /** One position of a sorted path lies on its side of the scan's stopping point. */
  lemma CameraBracketsAt(ks: seq<CameraKeyframe>, time: real, i: nat)
    requires SortedBy(ks, CameraTime)
    requires 0 < FirstAtOrAfter(ks, time) < |ks| && i < |ks|
    ensures var j := FirstAtOrAfter(ks, time);
      && (ks[i].time < time ==> ks[i].time <= ks[j - 1].time)
      && (ks[i].time > time ==> ks[j].time <= ks[i].time)
  {
    var j := FirstAtOrAfter(ks, time);
    if i >= j {
      assert CameraTime(ks[j]) <= CameraTime(ks[i]);
    } else if i < j - 1 {
      assert CameraTime(ks[i]) <= CameraTime(ks[j - 1]);
    }
  }

  /** Strictly between two keyframes, the state is their eased blend. */
  lemma StateBetween(ks: seq<CameraKeyframe>, time: real)
    requires var j := FirstAtOrAfter(ks, time); 0 < j < |ks| && ks[j - 1].time < time < ks[j].time
    ensures var j := FirstAtOrAfter(ks, time);
      CameraStateAt(ks, time) == Some(BlendCamera(ks[j - 1], ks[j], time))
  {
    var j := FirstAtOrAfter(ks, time);
    assert LastAtOrBefore(ks, time, j + 1) == Some(j - 1);
  }

  // ----- the sorted-list invariant through a session -----

  /** Deleting keeps only the keyframes of other ids. */
  lemma DeleteRemovesAll(ks: seq<CameraKeyframe>, id: string)
    ensures forall k :: k in DeletedKeyframes(ks, id) ==> k.id != id
  {
  }

  /** Updating changes only the keyframes with that id. */
  lemma UpdateOnlyMatching(ks: seq<CameraKeyframe>, id: string, u: CameraUpdates)
    ensures forall k :: k in ks && k.id != id ==> k in UpdatedKeyframes(ks, id, u)
  {
    var mapped := UpdateMatching(ks, id, u);
    forall k | k in ks && k.id != id
      ensures k in UpdatedKeyframes(ks, id, u)
    {
      var i :| 0 <= i < |ks| && ks[i] == k;
      assert mapped[i] == k;
      assert k in multiset(mapped);
    }
  }

  /**
   * Adding to a sorted path places the new keyframe after every keyframe
   * at or before its time and before the later ones; the others keep
   * their order.
   */
  lemma AddIntoSortedPath(ks: seq<CameraKeyframe>, kf: CameraKeyframe)
    requires SortedBy(ks, CameraTime)
    ensures var p := FirstAbove(ks, CameraTime, kf.time);
      AddedKeyframes(ks, kf) == ks[..p] + [kf] + ks[p..]
  {
    SortAppendToSorted(ks, kf, CameraTime);
  }
}
