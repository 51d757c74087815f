/**
 * The editor session: the workflow step (choose 2D or 3D, upload a logo,
 * preview and edit), the animation settings with their keyframes, the
 * selections, and the camera path the session drives.
 *
 * The step machine runs workflow-select, upload, preview; starting over
 * returns to workflow-select. No handler ever moves to the export step.
 */
module EditorApp {
  import opened Base
  import opened Sorting
  import opened AnimationModel
  import opened Interpolation
  import opened LogoImage
  import opened CameraInterpolation
  import opened CameraAnimation
  import opened CameraPresets

  /** `WorkflowStep` */
  datatype WorkflowStep = WorkflowSelect | Upload | Preview | Export

  /** `{ ...defaultAnimationSettings, renderMode: mode }` */
  function SettingsForMode(mode: RenderMode): (s: AnimationSettings)
    ensures s == DefaultAnimationSettings().(renderMode := mode)
    ensures s.keyframes == [] && s.duration == 5.0 && s.renderMode == mode
  {
    DefaultAnimationSettings().(renderMode := mode)
  }

  /** The keyframe `handleAddKeyframe` creates: id `kf-<stamp>`, a snapshot of the current per-keyframe settings. */
  function SnapshotKeyframe(settings: AnimationSettings, timestamp: real, stamp: string): (k: Keyframe)
    ensures k.id == "kf-" + stamp && k.timestamp == timestamp
    ensures k.settings == settings.visual
  {
    Keyframe("kf-" + stamp, timestamp, settings.visual)
  }

  /** `keyframes.map(kf => kf.id === updated.id ? updated : kf)` */
  function ReplacedKeyframes(ks: seq<Keyframe>, updated: Keyframe): (r: seq<Keyframe>)
    ensures |r| == |ks|
    ensures forall i :: 0 <= i < |ks| ==> r[i] == if ks[i].id == updated.id then updated else ks[i]
  {
    seq(|ks|, i requires 0 <= i < |ks| => if ks[i].id == updated.id then updated else ks[i])
  }

  /** `keyframes.filter(kf => kf.id !== keyframeId)` */
  function RemovedKeyframes(ks: seq<Keyframe>, id: string): (r: seq<Keyframe>)
    ensures |r| <= |ks|
    ensures forall k :: k in r <==> k in ks && k.id != id
  {
    Filter(ks, (k: Keyframe) => k.id != id)
  }

  /** A replacement whose id no keyframe has changes nothing. */
  lemma ReplaceMissingId(ks: seq<Keyframe>, updated: Keyframe)
    requires forall k :: k in ks ==> k.id != updated.id
    ensures ReplacedKeyframes(ks, updated) == ks
  {
    var r := ReplacedKeyframes(ks, updated);
    forall i | 0 <= i < |ks| ensures r[i] == ks[i] {
      assert ks[i] in ks;
    }
  }

  /** Removing an id no keyframe has changes nothing. */
  lemma {:induction false} RemoveMissingId(ks: seq<Keyframe>, id: string)
    requires forall k :: k in ks ==> k.id != id
    ensures RemovedKeyframes(ks, id) == ks
    decreases |ks|
  {
    if ks != [] {
      RemoveMissingId(ks[1..], id);
      assert ks == [ks[0]] + ks[1..];
      assert ks[0] in ks;
    }
  }

  /** Removing distributes over concatenation. */
  lemma {:induction false} RemoveAppend(a: seq<Keyframe>, b: seq<Keyframe>, id: string)
    ensures RemovedKeyframes(a + b, id) == RemovedKeyframes(a, id) + RemovedKeyframes(b, id)
    decreases |a|
  {
    if a != [] {
      RemoveAppend(a[1..], b, id);
      assert (a + b)[1..] == a[1..] + b;
    } else {
      assert a + b == b;
    }
  }

  /** Deleting a freshly added keyframe gives back the list it was added to. */
  lemma DeleteUndoesAdd(settings: AnimationSettings, timestamp: real, stamp: string)
    requires forall k :: k in settings.keyframes ==> k.id != "kf-" + stamp
    ensures RemovedKeyframes(settings.keyframes + [SnapshotKeyframe(settings, timestamp, stamp)], "kf-" + stamp)
      == settings.keyframes
  {
    var k := SnapshotKeyframe(settings, timestamp, stamp);
    RemoveAppend(settings.keyframes, [k], k.id);
    RemoveMissingId(settings.keyframes, k.id);
    assert RemovedKeyframes([k], k.id) == [];
  }

  /** Replacing a keyframe by itself with new settings twice is the same as once. */
  lemma ReplaceIdempotent(ks: seq<Keyframe>, updated: Keyframe)
    ensures ReplacedKeyframes(ReplacedKeyframes(ks, updated), updated) == ReplacedKeyframes(ks, updated)
  {
  }

  /**
   * `displaySettings`: the settings interpolated at the playhead while the
   * timeline has keyframes and is playing, the settings themselves otherwise.
   */
  function DisplaySettings(settings: AnimationSettings, isPlaying: bool, currentTime: real): (r: AnimationSettings)
    requires ValidTints(settings.keyframes)
    ensures |settings.keyframes| > 0 && isPlaying ==> r == Interpolate(settings, currentTime)
    ensures !isPlaying ==> r == settings
  {
    if |settings.keyframes| > 0 && isPlaying then Interpolate(settings, currentTime) else settings
  }

  /** Without keyframes the displayed settings are the settings, playing or not. */
  lemma DisplayWithoutKeyframes(settings: AnimationSettings, isPlaying: bool, currentTime: real)
    requires settings.keyframes == []
    ensures DisplaySettings(settings, isPlaying, currentTime) == settings
  {
  }

  /** `keyframes.find(kf => kf.id === selectedKeyframeId)`: the first keyframe with the selected id. */
  function FindKeyframe(ks: seq<Keyframe>, selectedId: Option<string>): (r: Option<Keyframe>)
    ensures selectedId.None? ==> r.None?
    ensures r.Some? ==> r.value in ks && Some(r.value.id) == selectedId
    ensures selectedId.Some? && (exists k :: k in ks && k.id == selectedId.value) ==> r.Some?
    ensures r.Some? ==> exists i :: 0 <= i < |ks| && ks[i] == r.value && forall j :: 0 <= j < i ==> ks[j].id != r.value.id
    decreases |ks|
  {
    if selectedId.None? || ks == [] then None
    else if ks[0].id == selectedId.value then Some(ks[0])
    else
      var r := FindKeyframe(ks[1..], selectedId);
      assert r.Some? ==> exists i :: 0 <= i < |ks| && ks[i] == r.value && forall j :: 0 <= j < i ==> ks[j].id != r.value.id by {
        if r.Some? {
          var i :| 0 <= i < |ks[1..]| && ks[1..][i] == r.value && forall j :: 0 <= j < i ==> ks[1..][j].id != r.value.id;
          assert forall j :: 1 <= j < i + 1 ==> ks[j] == ks[1..][j - 1];
          assert ks[i + 1] == r.value;
        }
      }
      assert forall k :: k in ks && k.id == selectedId.value ==> k in ks[1..] by {
        forall k | k in ks && k.id == selectedId.value ensures k in ks[1..] {
          var i :| 0 <= i < |ks| && ks[i] == k;
          assert i != 0;
          assert ks[1..][i - 1] == k;
        }
      }
      r
  }

  /** After `handleAddKeyframe` with a fresh id, the selected keyframe is the snapshot just added. */
  lemma AddedKeyframeIsSelected(settings: AnimationSettings, timestamp: real, stamp: string)
    requires forall k :: k in settings.keyframes ==> k.id != "kf-" + stamp
    ensures FindKeyframe(settings.keyframes + [SnapshotKeyframe(settings, timestamp, stamp)], Some("kf-" + stamp))
      == Some(SnapshotKeyframe(settings, timestamp, stamp))
  {
    var k := SnapshotKeyframe(settings, timestamp, stamp);
    var ks := settings.keyframes + [k];
    assert k in ks;
    assert forall x :: x in ks && x.id == k.id ==> x == k;
  }

  /** `isPlaying ? interpolateCameraState(currentTime) : null` */
  function CurrentCameraState(ks: seq<CameraKeyframe>, isPlaying: bool, currentTime: real): (r: Option<CameraKeyframe>)
    ensures r.Some? <==> isPlaying && ks != []
    ensures isPlaying ==> r == CameraStateAt(ks, currentTime)
  {
    if isPlaying then CameraStateAt(ks, currentTime) else None
  }

  /** The options `handleApplyPreset` receives from the camera panel. */
  datatype PanelOptions = PanelOptions(radius: real, speed: real, direction: Direction)

  /** The state of the editor (`App`). */
  class EditorSession {
    var currentStep: WorkflowStep
    var workflowMode: RenderMode
    var logoImageUrl: Option<string>
    var animationSettings: AnimationSettings
    var selectedKeyframeId: Option<string>
    var logoAnalysis: Option<LogoAnalysis>
    /** The camera path store the session drives (`useCameraAnimation`). */
    const camera: CameraPath

    /** The camera path is sorted, and the step is never `export`. */
    ghost predicate Valid()
      reads this, camera
    {
      camera.Valid() && currentStep != Export
    }

    constructor()
      ensures Valid() && fresh(camera)
      ensures currentStep == WorkflowSelect && workflowMode == Mode3D && logoImageUrl == None
      ensures animationSettings == DefaultAnimationSettings()
      ensures selectedKeyframeId == None && logoAnalysis == None
      ensures camera.keyframes == [] && camera.selectedKeyframeId == None
    {
      currentStep := WorkflowSelect;
      workflowMode := Mode3D;
      logoImageUrl := None;
      animationSettings := DefaultAnimationSettings();
      selectedKeyframeId := None;
      logoAnalysis := None;
      camera := new CameraPath();
    }

    /** `handleWorkflowSelected(mode)`: fresh default settings in the chosen mode, then the upload step. */
    method HandleWorkflowSelected(mode: RenderMode)
      modifies this
      requires Valid()
      ensures Valid()
      ensures workflowMode == mode && currentStep == Upload
      ensures animationSettings == SettingsForMode(mode)
      ensures logoImageUrl == old(logoImageUrl) && selectedKeyframeId == old(selectedKeyframeId)
      ensures logoAnalysis == old(logoAnalysis)
    {
      workflowMode := mode;
      animationSettings := DefaultAnimationSettings().(renderMode := mode);
      currentStep := Upload;
    }

    /** `handleLogoUploaded(imageUrl)`: the logo is kept and the preview step begins. */
    method HandleLogoUploaded(imageUrl: string)
      modifies this
      requires Valid()
      ensures Valid()
      ensures logoImageUrl == Some(imageUrl) && currentStep == Preview
      ensures workflowMode == old(workflowMode) && animationSettings == old(animationSettings)
      ensures selectedKeyframeId == old(selectedKeyframeId) && logoAnalysis == old(logoAnalysis)
    {
      logoImageUrl := Some(imageUrl);
      currentStep := Preview;
    }

    /**
     * `handleStartOver()`: back to workflow-select in 3D with default
     * settings, no logo, no analysis, no selections and an empty camera
     * path. Stopping the audio preview is not modelled.
     */
    method HandleStartOver()
      modifies this, camera
      requires Valid()
      ensures Valid()
      ensures currentStep == WorkflowSelect && workflowMode == Mode3D && logoImageUrl == None
      ensures animationSettings == DefaultAnimationSettings()
      ensures selectedKeyframeId == None && logoAnalysis == None
      ensures camera.keyframes == [] && camera.selectedKeyframeId == None
      ensures camera.recordingState == old(camera.recordingState)
    {
      logoImageUrl := None;
      currentStep := WorkflowSelect;
      workflowMode := Mode3D;
      animationSettings := DefaultAnimationSettings();
      selectedKeyframeId := None;
      camera.SetSelectedKeyframeId(None);
      logoAnalysis := None;
      camera.ClearPath();
    }

    /**
     * `handleAddKeyframe(timestamp)`, with the `Date.now()` text passed as
     * `stamp`: appends a snapshot of the current settings, selects it and
     * clears the camera keyframe selection.
     */
    method HandleAddKeyframe(timestamp: real, stamp: string)
      modifies this, camera
      requires Valid()
      ensures Valid()
      ensures animationSettings == old(animationSettings).(
        keyframes := old(animationSettings.keyframes) + [SnapshotKeyframe(old(animationSettings), timestamp, stamp)])
      ensures selectedKeyframeId == Some("kf-" + stamp)
      ensures camera.selectedKeyframeId == None && camera.keyframes == old(camera.keyframes)
      ensures camera.recordingState == old(camera.recordingState)
      ensures currentStep == old(currentStep) && workflowMode == old(workflowMode)
      ensures logoImageUrl == old(logoImageUrl) && logoAnalysis == old(logoAnalysis)
    {
      var newKeyframe := Keyframe("kf-" + stamp, timestamp, animationSettings.visual);
      animationSettings := animationSettings.(keyframes := animationSettings.keyframes + [newKeyframe]);
      selectedKeyframeId := Some(newKeyframe.id);
      camera.SetSelectedKeyframeId(None);
    }

    /** `handleUpdateKeyframe(updatedKeyframe)`: the keyframes with its id are replaced by it. */
    method HandleUpdateKeyframe(updatedKeyframe: Keyframe)
      modifies this
      requires Valid()
      ensures Valid()
      ensures animationSettings == old(animationSettings).(
        keyframes := ReplacedKeyframes(old(animationSettings.keyframes), updatedKeyframe))
      ensures selectedKeyframeId == old(selectedKeyframeId) && currentStep == old(currentStep)
      ensures workflowMode == old(workflowMode) && logoImageUrl == old(logoImageUrl)
      ensures logoAnalysis == old(logoAnalysis)
    {
      animationSettings := animationSettings.(keyframes := ReplacedKeyframes(animationSettings.keyframes, updatedKeyframe));
    }

    /** `handleDeleteKeyframe(keyframeId)`: the keyframes with that id go and the selection is cleared. */
    method HandleDeleteKeyframe(keyframeId: string)
      modifies this
      requires Valid()
      ensures Valid()
      ensures animationSettings == old(animationSettings).(
        keyframes := RemovedKeyframes(old(animationSettings.keyframes), keyframeId))
      ensures selectedKeyframeId == None && currentStep == old(currentStep)
      ensures workflowMode == old(workflowMode) && logoImageUrl == old(logoImageUrl)
      ensures logoAnalysis == old(logoAnalysis)
    {
      animationSettings := animationSettings.(keyframes := RemovedKeyframes(animationSettings.keyframes, keyframeId));
      selectedKeyframeId := None;
    }

    /** `handleAutoEffectsGenerated(settings, analysis)`: the generated settings and the analysis are kept. */
    method HandleAutoEffectsGenerated(settings: AnimationSettings, analysis: LogoAnalysis)
      modifies this
      requires Valid()
      ensures Valid()
      ensures animationSettings == settings && logoAnalysis == Some(analysis)
      ensures currentStep == old(currentStep) && workflowMode == old(workflowMode)
      ensures selectedKeyframeId == old(selectedKeyframeId) && logoImageUrl == old(logoImageUrl)
    {
      animationSettings := settings;
      logoAnalysis := Some(analysis);
    }

    /**
     * `handleAddCameraKeyframe(timestamp)`: a camera keyframe five units in
     * front of the origin, unrotated, with field of view 50, joins the
     * path; the timeline keyframe selection is cleared.
     */
    method HandleAddCameraKeyframe(timestamp: real, stamp: string)
      modifies this, camera
      requires Valid()
      ensures Valid()
      ensures camera.keyframes == AddedKeyframes(old(camera.keyframes),
        WithId(CameraPose(timestamp, Vec3(0.0, 0.0, 5.0), Vec3(0.0, 0.0, 0.0), 50.0), "cam-kf-" + stamp))
      ensures camera.selectedKeyframeId == old(camera.selectedKeyframeId)
      ensures camera.recordingState == old(camera.recordingState)
      ensures selectedKeyframeId == None && animationSettings == old(animationSettings)
      ensures currentStep == old(currentStep) && workflowMode == old(workflowMode)
      ensures logoImageUrl == old(logoImageUrl) && logoAnalysis == old(logoAnalysis)
    {
      var _ := camera.AddKeyframe(CameraPose(timestamp, Vec3(0.0, 0.0, 5.0), Vec3(0.0, 0.0, 0.0), 50.0), stamp);
      selectedKeyframeId := None;
    }

    /** `handleCaptureKeyframe(position, rotation, fov)`: the viewer's camera joins the path at the playhead. */
    method HandleCaptureKeyframe(currentTime: real, position: Vec3, rotation: Vec3, fov: real, stamp: string)
      modifies camera
      requires Valid()
      ensures Valid()
      ensures camera.keyframes == AddedKeyframes(old(camera.keyframes),
        WithId(CameraPose(currentTime, position, rotation, fov), "cam-kf-" + stamp))
      ensures camera.selectedKeyframeId == old(camera.selectedKeyframeId)
      ensures camera.recordingState == old(camera.recordingState)
    {
      var _ := camera.AddKeyframe(CameraPose(currentTime, position, rotation, fov), stamp);
    }

    /** `handleUpdateCameraKeyframe(keyframe)`: every field but the id is written to the keyframes with that id. */
    method HandleUpdateCameraKeyframe(keyframe: CameraKeyframe)
      modifies camera
      requires Valid()
      ensures Valid()
      ensures camera.keyframes == UpdatedKeyframes(old(camera.keyframes), keyframe.id,
        CameraUpdates(Some(keyframe.time), Some(keyframe.position), Some(keyframe.rotation), Some(keyframe.fov)))
      ensures camera.selectedKeyframeId == old(camera.selectedKeyframeId)
      ensures camera.recordingState == old(camera.recordingState)
    {
      camera.UpdateKeyframe(keyframe.id,
        CameraUpdates(Some(keyframe.time), Some(keyframe.position), Some(keyframe.rotation), Some(keyframe.fov)));
    }

    /**
     * `handleApplyPreset(preset, options)`: builds the named preset around
     * the logo's position over the animation's duration and makes it the
     * camera path; an unknown name changes nothing. `cos` and `sin` stand
     * for `Math.cos` and `Math.sin`; `stamp` is the `Date.now()` text.
     */
    method HandleApplyPreset(preset: string, options: PanelOptions, cos: real -> real, sin: real -> real, stamp: string)
      modifies camera
      requires Valid()
      ensures Valid()
      ensures preset !in {"orbit", "dollyZoom", "flyThrough", "tracking"} ==>
        camera.keyframes == old(camera.keyframes)
      ensures var o := PresetOptions(animationSettings.duration, Some(options.radius), Some(options.speed),
          Some(options.direction),
          Some(Vec3(animationSettings.visual.positionX, animationSettings.visual.positionY, animationSettings.visual.positionZ)));
        && (preset == "orbit" ==> camera.keyframes == PresetKeyframes(OrbitPreset(o, cos, sin), stamp))
        && (preset == "dollyZoom" ==> camera.keyframes == PresetKeyframes(DollyZoomPreset(o), stamp))
        && (preset == "flyThrough" ==> camera.keyframes == PresetKeyframes(FlyThroughPreset(o), stamp))
        && (preset == "tracking" ==> camera.keyframes == PresetKeyframes(TrackingShotPreset(o), stamp))
      ensures camera.recordingState == old(camera.recordingState)
      ensures camera.selectedKeyframeId == old(camera.selectedKeyframeId)
    {
      var v := animationSettings.visual;
      var presetOptions := PresetOptions(animationSettings.duration, Some(options.radius), Some(options.speed),
        Some(options.direction), Some(Vec3(v.positionX, v.positionY, v.positionZ)));
      var keyframes;
      if preset == "orbit" {
        keyframes := GenerateOrbitPreset(presetOptions, cos, sin);
      } else if preset == "dollyZoom" {
        keyframes := DollyZoomPreset(presetOptions);
      } else if preset == "flyThrough" {
        keyframes := FlyThroughPreset(presetOptions);
      } else if preset == "tracking" {
        keyframes := TrackingShotPreset(presetOptions);
      } else {
        return;
      }
      camera.ApplyPresetKeyframes(keyframes, stamp);
    }
  }
}
