# Logo animation editor — a Dafny model

This project models the core of a browser editor that turns an uploaded logo
into an animation, in 2D or in 3D. A session runs through three steps:

1. choose a workflow mode;
2. upload a logo image;
3. preview and edit.

The model covers:

- **Animation settings** and the timeline keyframes a user adds, updates and
  deletes. Interpolation blends the settings between keyframes at the
  playhead, and a playback clock runs, pauses, seeks and stops at the end of
  the timeline.
- **The camera path** (3D): sorted camera keyframes, with eased interpolation
  between them and four ready-made presets (orbit, dolly zoom, fly-through,
  tracking shot).
- **Logo analysis**: the pixel pass that measures brightness, saturation,
  edges and dominant colours.
- **Effects from the analysis**: the rule-based effect recommendations, and
  applying them to the settings. The automatic profile generator builds a
  whole four-keyframe timeline from the analysis.
- **AI suggestions**: the rule-based placeholder suggestions.
- **Audio and uploads**: the sound-effect triggers derived from the
  keyframes, the music selection, and the checks on logo and audio uploads.

Numbers are Dafny `real`s: exact, with no IEEE rounding, NaN or infinity.
`Math.round(x)` is `floor(x + 0.5)`. Colours are `#rrggbb` strings, decoded
and re-encoded as the source does with `parseInt(.., 16)` and `toString(16)`.

The environment enters as parameters:

- `Date.now()`: the text it would give, as a string parameter.
- `Math.cos` and `Math.sin`: functions passed in.
- Object-URL creation: for the logo an `Option` (`None` when it throws); for the audio an `ObjectUrl`, either the created URL or the message of the error thrown.
- The audio element's metadata load: an `Option` holding the duration.
- Whether the backend actor is ready: a boolean.

React state becomes classes whose methods update fields in place. The
editor session's class holds the camera path store it drives.

## Model

| member | source | states |
|---|---|---|
| Base.Round | src/frontend/src/utils/interpolation.ts:19-21 | `Math.round` lies within half a unit of its argument |
| Base.RoundOfInt | src/frontend/src/utils/interpolation.ts:19-21 | rounding a whole number gives it back |
| Base.RoundBetween | src/frontend/src/utils/interpolation.ts:19-21 | rounding a value between two integers stays between them, so a rounded channel stays a byte |
| Base.Min | src/frontend/src/hooks/useTimelinePlayback.ts:24 | `Math.min` is one of its arguments and below both |
| Base.Max | src/frontend/src/hooks/useTimelinePlayback.ts:24 | `Math.max` is one of its arguments and above both |
| Base.Abs | src/frontend/src/utils/audioMixing.ts:39 | `Math.abs` is non-negative and is the value or its negation |
| Base.Decimal | src/frontend/src/hooks/useCameraAnimation.ts:124 | the decimal text of an index is a non-empty string of digits |
| Base.DecimalRoundTrip | src/frontend/src/hooks/useCameraAnimation.ts:124 | reading the decimal text back gives the index |
| Base.DecimalInjective | src/frontend/src/hooks/useCameraAnimation.ts:124 | different indices have different texts |
| HexColor.HexValue | src/frontend/src/utils/interpolation.ts:11-17 | a hex digit, of either case, is worth 0 to 15 |
| HexColor.ParseHexByte | src/frontend/src/utils/interpolation.ts:11-17 | two hex digits make a byte |
| HexColor.DecodeColor | src/frontend/src/utils/interpolation.ts:8-17 | a `#rrggbb` colour decodes to three bytes |
| HexColor.ToHexString | src/frontend/src/utils/interpolation.ts:23 | `toString(16)` is never empty |
| HexColor.PadStart | src/frontend/src/utils/interpolation.ts:23 | `padStart` yields the longer of the text and the width |
| HexColor.ByteToHex | src/frontend/src/utils/interpolation.ts:23 | a padded byte is its high and low lower-case hex digits |
| HexColor.EncodeColor | src/frontend/src/utils/interpolation.ts:23 | encoding three bytes gives a lower-case `#rrggbb` colour |
| HexColor.HexDigitRoundTrip | src/frontend/src/utils/interpolation.ts:11-23 | a digit written by `toString(16)` reads back as its value |
| HexColor.LowerHexCharRoundTrip | src/frontend/src/utils/interpolation.ts:11-23 | a lower-case digit written back from its value is itself |
| HexColor.ByteRoundTrip | src/frontend/src/utils/interpolation.ts:11-23 | two lower-case digits read and written back are unchanged |
| HexColor.EncodeDecode | src/frontend/src/utils/interpolation.ts:8-23 | decoding an encoded colour gives its channels back |
| HexColor.DecodeEncode | src/frontend/src/utils/interpolation.ts:8-23 | a lower-case colour decoded and re-encoded is itself |
| Sorting.SortBy | src/frontend/src/utils/interpolation.ts:38 | the stable sort by a numeric key keeps the length |
| Sorting.SortByPermutation | src/frontend/src/utils/interpolation.ts:38 | the sorted list is a permutation of the input |
| Sorting.SortBySorted | src/frontend/src/utils/interpolation.ts:38 | the sorted list is in non-decreasing key order |
| Sorting.SortByStable | src/frontend/src/utils/interpolation.ts:38 | elements with equal keys keep their relative order (`Array.prototype.sort` is stable) |
| Sorting.StrictlySortedUnique | src/frontend/src/utils/interpolation.ts:38 | two strictly sorted permutations of each other are equal |
| Sorting.SortedDistinctIsStrict | src/frontend/src/utils/interpolation.ts:38 | a sorted list with distinct keys is strictly sorted |
| Sorting.SortByDistinct | src/frontend/src/utils/interpolation.ts:38 | sorting keeps distinct ids or keys distinct |
| Sorting.FirstAbove | src/frontend/src/hooks/useCameraAnimation.ts:42 | the first position whose key exceeds a bound; every earlier key is at most the bound |
| Sorting.SortAppendToSorted | src/frontend/src/hooks/useCameraAnimation.ts:42 | appending to a sorted list and sorting inserts the new element after all keys at most its own |
| Sorting.Filter | src/frontend/src/hooks/useCameraAnimation.ts:59 | `filter` keeps exactly the elements that pass the test |
| Sorting.FilterSorted | src/frontend/src/hooks/useCameraAnimation.ts:59 | filtering a sorted list leaves it sorted |
| AnimationModel.DefaultAnimationSettings | src/frontend/src/hooks/useAnimationSettings.ts:41-58 | the defaults: 3D, no keyframes, 5 s, rotating at speed 1 about the vertical axis, full opacity, tint `#ffffff`, glow and shadow intensity 0.5, glow and trail off |
| Interpolation.Lerp | src/frontend/src/utils/interpolation.ts:3-5 | `lerp` starts at a, ends at b, and for t in [0, 1] stays between them |
| Interpolation.LerpChannel | src/frontend/src/utils/interpolation.ts:19-21 | a rounded blended channel is a byte between the two channels, equal to each at the ends |
| Interpolation.LerpColor | src/frontend/src/utils/interpolation.ts:7-24 | `lerpColor` yields a lower-case colour whose channels are the rounded blends of the inputs' channels |
| Interpolation.LerpColorMidGrey | src/frontend/src/utils/interpolation.ts:7-24 | halfway from black to white is `#808080` |
| Interpolation.BlendSettings | src/frontend/src/utils/interpolation.ts:66-87 | between two keyframes every numeric setting lies between theirs; the flags come from the earlier keyframe below t = 0.5 and from the later one from 0.5 |
| Interpolation.FirstLaterThan | src/frontend/src/utils/interpolation.ts:44-52 | the scan stops at the first keyframe later than the playhead; all before it are at or before it |
| Interpolation.SortedKeyframesFacts | src/frontend/src/utils/interpolation.ts:38 | the sorted copy has the same keyframes and is in timestamp order |
| Interpolation.BlendFactorRange | src/frontend/src/utils/interpolation.ts:66 | the blend factor is in [0, 1), and 0 on the earlier keyframe |
| Interpolation.PickFromSorted | src/frontend/src/utils/interpolation.ts:54-90 | choosing from the sorted keyframes changes only the per-keyframe settings |
| Interpolation.SortedValidTints | src/frontend/src/utils/interpolation.ts:38 | sorting keeps every tint a valid colour |
| Interpolation.Interpolate | src/frontend/src/utils/interpolation.ts:26-91 | interpolation keeps the keyframes, duration and mode, and returns the settings unchanged when there are no keyframes |
| Interpolation.InterpolateSettings | src/frontend/src/utils/interpolation.ts:26-91 | the loop over the sorted keyframes computes `Interpolate` |
| Interpolation.MinTimestamp | src/frontend/src/utils/interpolation.ts:55-57 | the earliest timestamp is one of the keyframes' and at most all of them |
| Interpolation.MaxTimestamp | src/frontend/src/utils/interpolation.ts:60-62 | the latest timestamp is one of the keyframes' and at least all of them |
| Interpolation.SortedEnds | src/frontend/src/utils/interpolation.ts:38 | the sorted copy starts at the earliest and ends at the latest timestamp |
| Interpolation.InterpolateBeforeFirst | src/frontend/src/utils/interpolation.ts:54-57 | before every keyframe the settings are those of the first keyframe (in input order) at the earliest timestamp |
| Interpolation.InterpolateAfterLast | src/frontend/src/utils/interpolation.ts:59-62 | at or after every keyframe the settings are those of the last keyframe (in input order) at the latest timestamp |
| Interpolation.ScanBrackets | src/frontend/src/utils/interpolation.ts:44-52 | when the scan stops inside the list, the keyframes beside it bracket the playhead: latest at or before, earliest after |
| Interpolation.BracketsSameMembers | src/frontend/src/utils/interpolation.ts:38 | bracketing depends only on which keyframes there are |
| Interpolation.InterpolateBlends | src/frontend/src/utils/interpolation.ts:64-87 | with keyframes on both sides of the playhead the result blends the bracketing pair by the factor of the playhead's position between them |
| Interpolation.PickBlends | src/frontend/src/utils/interpolation.ts:64-87 | on a sorted list the blend uses the keyframes on each side of where the scan stopped |
| Interpolation.InterpolateOrderIndependent | src/frontend/src/utils/interpolation.ts:38 | with distinct timestamps the order of the keyframe list does not change the interpolated settings |
| Interpolation.SortedKeyframesUnique | src/frontend/src/utils/interpolation.ts:38 | with distinct timestamps every ordering sorts to the same list |
| Interpolation.DistinctPermutation | src/frontend/src/utils/interpolation.ts:38 | distinct timestamps stay distinct under reordering |
| Interpolation.TwoKeyframeScenario | src/frontend/src/utils/interpolation.ts:64-87 | with keyframes at 0 s (scale 0.5) and 5 s (scale 1.5), the scale at 2.5 s is 1, and the flags switch to the second keyframe's exactly at 2.5 s |
| CameraInterpolation.CubicFixedPoints | src/frontend/src/utils/cameraInterpolation.ts:3-5 | `easeInOutCubic` maps 0, 0.5 and 1 to themselves |
| CameraInterpolation.QuadFixedPoints | src/frontend/src/utils/cameraInterpolation.ts:7-9 | `easeInOutQuad` maps 0, 0.5 and 1 to themselves |
| CameraInterpolation.CubicRange | src/frontend/src/utils/cameraInterpolation.ts:3-5 | the cubic easing maps [0, 1] into [0, 1], keeping each half on its side of 0.5 |
| CameraInterpolation.QuadRange | src/frontend/src/utils/cameraInterpolation.ts:7-9 | the quadratic easing maps [0, 1] into [0, 1], keeping each half on its side of 0.5 |
| CameraInterpolation.CubicMonotone | src/frontend/src/utils/cameraInterpolation.ts:3-5 | the cubic easing never decreases on [0, 1] |
| CameraInterpolation.QuadMonotone | src/frontend/src/utils/cameraInterpolation.ts:7-9 | the quadratic easing never decreases on [0, 1] |
| CameraInterpolation.CubicSymmetric | src/frontend/src/utils/cameraInterpolation.ts:3-5 | the cubic easing is point-symmetric about (0.5, 0.5) |
| CameraInterpolation.QuadSymmetric | src/frontend/src/utils/cameraInterpolation.ts:7-9 | the quadratic easing is point-symmetric about (0.5, 0.5) |
| CameraInterpolation.ThreeLerp | src/frontend/src/hooks/useCameraAnimation.ts:115 | `THREE.MathUtils.lerp` is the same blend as the timeline's `lerp` |
| CameraInterpolation.LerpVec | src/frontend/src/hooks/useCameraAnimation.ts:105-114 | a blended vector starts and ends at the given ones and stays in the box they span |
| CameraInterpolation.LerpPosition | src/frontend/src/utils/cameraInterpolation.ts:11-22 | the eased position starts at `start`, ends at `end` and stays in the box they span |
| CameraInterpolation.LerpFOV | src/frontend/src/utils/cameraInterpolation.ts:47-50 | the eased field of view starts at `start`, ends at `end`, is the mean at t = 0.5 and stays between them |
| CameraAnimation.WithId | src/frontend/src/hooks/useCameraAnimation.ts:35-39 | giving a pose an id keeps its time, position, rotation and field of view |
| CameraAnimation.Merge | src/frontend/src/hooks/useCameraAnimation.ts:51 | `{ ...kf, ...updates }` takes each given field from the update and keeps the id and the rest |
| CameraAnimation.AddedKeyframes | src/frontend/src/hooks/useCameraAnimation.ts:42 | adding a keyframe gives a sorted permutation of the old path plus it |
| CameraAnimation.UpdateMatching | src/frontend/src/hooks/useCameraAnimation.ts:50-51 | exactly the keyframes with the id are merged with the update, in place |
| CameraAnimation.UpdatedKeyframes | src/frontend/src/hooks/useCameraAnimation.ts:50-52 | the updated path is the merged path, re-sorted by time |
| CameraAnimation.DeletedKeyframes | src/frontend/src/hooks/useCameraAnimation.ts:59 | deletion keeps exactly the keyframes with another id |
| CameraAnimation.DeleteKeepsOrder | src/frontend/src/hooks/useCameraAnimation.ts:59 | deleting from a sorted path leaves it sorted |
| CameraAnimation.DeleteRemovesAll | src/frontend/src/hooks/useCameraAnimation.ts:59 | no keyframe with the deleted id survives |
| CameraAnimation.UpdateOnlyMatching | src/frontend/src/hooks/useCameraAnimation.ts:50-52 | keyframes with another id survive an update unchanged |
| CameraAnimation.AddIntoSortedPath | src/frontend/src/hooks/useCameraAnimation.ts:42 | a new keyframe lands after every keyframe at or before its time and before the later ones |
| CameraAnimation.PresetIdInjective | src/frontend/src/hooks/useCameraAnimation.ts:124 | preset keyframes of different indices get different ids |
| CameraAnimation.StampPresets | src/frontend/src/hooks/useCameraAnimation.ts:122-125 | the i-th preset pose gets the id `cam-kf-preset-<stamp>-<i>`, and the ids are distinct |
| CameraAnimation.PresetKeyframes | src/frontend/src/hooks/useCameraAnimation.ts:119-127 | the applied presets are the stamped poses, sorted by time, with distinct ids |
| CameraAnimation.FirstAtOrAfter | src/frontend/src/hooks/useCameraAnimation.ts:84-92 | the scan's next keyframe is the first at or after the time |
| CameraAnimation.LastAtOrBefore | src/frontend/src/hooks/useCameraAnimation.ts:84-92 | the scan's previous keyframe is the last at or before the time, up to where the scan stopped |
| CameraAnimation.BlendCamera | src/frontend/src/hooks/useCameraAnimation.ts:98-116 | strictly between two keyframes the pose is the eased blend of position, rotation and field of view, with id `interpolated` |
| CameraAnimation.CameraStateAt | src/frontend/src/hooks/useCameraAnimation.ts:76-117 | there is a pose exactly when the path is non-empty; a one-keyframe path always gives that keyframe |
| CameraAnimation.SingleKeyframePose | src/frontend/src/hooks/useCameraAnimation.ts:78 | a single keyframe is the pose at every time |
| CameraAnimation.PoseBeforePath | src/frontend/src/hooks/useCameraAnimation.ts:94 | before a sorted path starts, the pose is its first keyframe |
| CameraAnimation.PoseAfterPath | src/frontend/src/hooks/useCameraAnimation.ts:95 | after every keyframe, the pose is the last one |
| CameraAnimation.PoseAtKeyframe | src/frontend/src/hooks/useCameraAnimation.ts:96 | at a keyframe's own time the pose is the first keyframe at that time, unblended |
| CameraAnimation.StateAtFirst | src/frontend/src/hooks/useCameraAnimation.ts:96 | when the first keyframe at or after the time is exactly at it, that keyframe is the pose |
| CameraAnimation.PoseBetween | src/frontend/src/hooks/useCameraAnimation.ts:98-116 | strictly between keyframes of a sorted path, the pose blends the latest earlier and the earliest later keyframe |
| CameraAnimation.CameraPath.constructor | src/frontend/src/hooks/useCameraAnimation.ts:21-25 | the store starts idle, empty and with nothing selected |
| CameraAnimation.CameraPath.StartRecording | src/frontend/src/hooks/useCameraAnimation.ts:27-29 | recording starts and nothing else changes |
| CameraAnimation.CameraPath.StopRecording | src/frontend/src/hooks/useCameraAnimation.ts:31-33 | recording stops and nothing else changes |
| CameraAnimation.CameraPath.AddKeyframe | src/frontend/src/hooks/useCameraAnimation.ts:35-45 | returns `cam-kf-<stamp>` and adds the keyframe with that id, keeping the path sorted |
| CameraAnimation.CameraPath.UpdateKeyframe | src/frontend/src/hooks/useCameraAnimation.ts:47-54 | merges the update into the keyframes with the id and re-sorts, keeping the count |
| CameraAnimation.CameraPath.DeleteKeyframe | src/frontend/src/hooks/useCameraAnimation.ts:56-62 | removes the keyframes with the id and clears the selection only if it was that id |
| CameraAnimation.CameraPath.ClearPath | src/frontend/src/hooks/useCameraAnimation.ts:64-70 | empties the path and the selection, keeping the recording state |
| CameraAnimation.CameraPath.SetSelectedKeyframeId | src/frontend/src/hooks/useCameraAnimation.ts:72-74 | sets the selection only |
| CameraAnimation.CameraPath.ApplyPresetKeyframes | src/frontend/src/hooks/useCameraAnimation.ts:119-127 | replaces the path by the stamped, sorted presets, keeping the selection and recording state |
| CameraAnimation.CameraPath.InterpolateCameraState | src/frontend/src/hooks/useCameraAnimation.ts:76-117 | the scan loop computes `CameraStateAt` of the path |
| TimelinePlayback.SeekTime | src/frontend/src/hooks/useTimelinePlayback.ts:23-25 | a seek is clamped into [0, duration] and is exact inside it |
| TimelinePlayback.Advance | src/frontend/src/hooks/useTimelinePlayback.ts:39-46 | a frame while playing adds the elapsed time, or stops at the duration once it is reached; while paused nothing changes |
| TimelinePlayback.StepInRange | src/frontend/src/hooks/useTimelinePlayback.ts:11-58 | every clock event with a non-negative frame time keeps the playhead in [0, duration] |
| TimelinePlayback.RunInRange | src/frontend/src/hooks/useTimelinePlayback.ts:11-58 | any sequence of such events keeps the playhead in [0, duration] |
| TimelinePlayback.PausedTicksDoNothing | src/frontend/src/hooks/useTimelinePlayback.ts:33 | while paused no frame moves the playhead |
| TimelinePlayback.Playback.constructor | src/frontend/src/hooks/useTimelinePlayback.ts:6-7 | playback starts paused at time 0 |
| TimelinePlayback.Playback.Play | src/frontend/src/hooks/useTimelinePlayback.ts:11-14 | starts playing at the current time |
| TimelinePlayback.Playback.Pause | src/frontend/src/hooks/useTimelinePlayback.ts:16-21 | stops playing at the current time |
| TimelinePlayback.Playback.Seek | src/frontend/src/hooks/useTimelinePlayback.ts:23-25 | moves the playhead to the clamped time, keeping the playing flag |
| TimelinePlayback.Playback.Reset | src/frontend/src/hooks/useTimelinePlayback.ts:27-30 | back to time 0, paused |
| TimelinePlayback.Playback.Tick | src/frontend/src/hooks/useTimelinePlayback.ts:35-49 | one animation frame advances the clock as `Advance` says |
| TimelinePlayback.Playback.ChangeSettings | src/frontend/src/hooks/useTimelinePlayback.ts:5 | new settings keep the clock, which stays valid exactly when the playhead is within the new duration |
| TimelinePlayback.Playback.InterpolatedSettings | src/frontend/src/hooks/useTimelinePlayback.ts:60 | the displayed settings are the timeline interpolated at the playhead |
| Recommendations.FieldsDetermineSettings | src/frontend/src/utils/recommendationApplicator.ts:11-31 | settings that agree on every field are equal |
| Recommendations.ApplyChange | src/frontend/src/utils/recommendationApplicator.ts:19-27 | one assignment sets its field to its value and leaves every other field alone |
| Recommendations.LastFor | src/frontend/src/utils/recommendationApplicator.ts:18 | the last change to a field, if there is one |
| Recommendations.ApplyChangesSnoc | src/frontend/src/utils/recommendationApplicator.ts:18-28 | applying one more change applies it to the previous result |
| Recommendations.ApplyChangesReads | src/frontend/src/utils/recommendationApplicator.ts:18-28 | after the changes each field holds the value of its last change, or its old value if none touched it |
| Recommendations.ApplyChangesIdempotent | src/frontend/src/utils/recommendationApplicator.ts:11-31 | applying a recommendation twice is the same as once |
| Recommendations.ApplyChangesAppend | src/frontend/src/utils/recommendationApplicator.ts:36-47 | applying two change lists in turn is applying their concatenation |
| Recommendations.ApplyRecommendation | src/frontend/src/utils/recommendationApplicator.ts:11-31 | the loop over `Object.entries(changes)` applies the changes in order |
| Recommendations.AllChanges | src/frontend/src/utils/recommendationApplicator.ts:42-44 | no recommendations contribute no changes |
| Recommendations.ApplyMultipleRecommendations | src/frontend/src/utils/recommendationApplicator.ts:36-47 | applying several recommendations in turn applies all their changes in order |
| Recommendations.NoChangesIsIdentity | src/frontend/src/utils/recommendationApplicator.ts:36-47 | no changes, or no recommendations, leave the settings as they were |
| Recommendations.LaterRecommendationWins | src/frontend/src/utils/recommendationApplicator.ts:36-47 | when a later recommendation sets a field, its value is the one that stays |
| EffectAnalysis.RuleIdInjective | src/frontend/src/utils/effectAnalysis.ts:37-349 | two rules with the same id are the same rule, so ids name suggestions uniquely |
| EffectAnalysis.ActiveAxes | src/frontend/src/utils/effectAnalysis.ts:240 | the number of positive axis components is at most 3, and 0 exactly when no component is positive |
| EffectAnalysis.Keyframes3 | src/frontend/src/utils/effectAnalysis.ts:52-81 | a three-keyframe suggestion runs from time 0 through half the duration to the full duration |
| EffectAnalysis.Build | src/frontend/src/utils/effectAnalysis.ts:37-349 | the suggestion a rule builds carries that rule's id |
| EffectAnalysis.FadeKeyframes | src/frontend/src/utils/effectAnalysis.ts:154-198 | the fade suggestion has four keyframes at 0, 20%, 80% and 100% of the duration, fading in from opacity 0 to 1 and back out to 0 |
| EffectAnalysis.BuildSpans | src/frontend/src/utils/effectAnalysis.ts:37-349 | every keyframe list a rule suggests starts at time 0 and ends at the animation's duration |
| EffectAnalysis.BuildKeepsRotation | src/frontend/src/utils/effectAnalysis.ts:37-201 | a 2D suggestion's keyframes keep the current rotation settings of the animation |
| EffectAnalysis.GlowRecommendation | src/frontend/src/utils/effectAnalysis.ts:125-137 | the glow suggestion has high priority, turns glow on and sets the intensity to the colourfulness capped at 0.8 |
| EffectAnalysis.Step | src/frontend/src/utils/effectAnalysis.ts:44-83 | one guarded push adds exactly one suggestion when its condition holds, and none otherwise |
| EffectAnalysis.PushIf | src/frontend/src/utils/effectAnalysis.ts:44-83 | the method form of one guarded push appends the rule's step to the list |
| EffectAnalysis.FiringRules | src/frontend/src/utils/effectAnalysis.ts:37-349 | the rules that fire are exactly the listed rules whose condition holds |
| EffectAnalysis.FiredSnoc | src/frontend/src/utils/effectAnalysis.ts:37-349 | running one more rule appends that rule's step to the suggestions |
| EffectAnalysis.FiredIsBuiltFiringRules | src/frontend/src/utils/effectAnalysis.ts:37-349 | the suggestions are the firing rules, each built in turn, one for one |
| EffectAnalysis.FiringRulesInOrder | src/frontend/src/utils/effectAnalysis.ts:37-349 | the firing rules keep the order in which the source tests them |
| EffectAnalysis.FiredHas | src/frontend/src/utils/effectAnalysis.ts:37-349 | a suggestion id is present exactly when its rule is listed and its condition holds |
| EffectAnalysis.FiredDistinct | src/frontend/src/utils/effectAnalysis.ts:37-349 | no two suggestions from one pass share an id |
| EffectAnalysis.FiredFrom | src/frontend/src/utils/effectAnalysis.ts:37-349 | every suggestion comes from a rule that fired |
| EffectAnalysis.Analysis2DKeepsRotation | src/frontend/src/utils/effectAnalysis.ts:37-201 | every 2D suggestion keeps the rotation settings and spans the duration |
| EffectAnalysis.RotationRulesExclusive | src/frontend/src/utils/effectAnalysis.ts:214-237 | the 3D pass never suggests both enabling rotation and speeding it up |
| EffectAnalysis.Analysis3DSpans | src/frontend/src/utils/effectAnalysis.ts:206-349 | every 3D suggestion's keyframes span the duration |
| EffectAnalysis.AnalysisGlow | src/frontend/src/utils/effectAnalysis.ts:125-137 | glow is suggested in either mode exactly when the logo's colourfulness exceeds 0.4 and glow is off |
| EffectAnalysis.AnalysisMultiAxis | src/frontend/src/utils/effectAnalysis.ts:240-252 | multi-axis rotation is suggested exactly when rotation is on and only one axis is active |
| EffectAnalysis.AnalysisSceneElements | src/frontend/src/utils/effectAnalysis.ts:337-346 | scene elements are suggested exactly when there are none, and the suggestion changes no settings |
| EffectAnalysis.AnalysisIdsDistinct | src/frontend/src/utils/effectAnalysis.ts:37-349 | the ids of the suggestions from one analysis are pairwise distinct in both modes |
| EffectAnalysis.Analyze2DEffects | src/frontend/src/utils/effectAnalysis.ts:37-201 | the 2D analysis returns the suggestions of the 2D rules that fire, in rule order |
| EffectAnalysis.Analyze3DEffects | src/frontend/src/utils/effectAnalysis.ts:206-349 | the 3D analysis returns the suggestions of the 3D rules that fire, in rule order |
| EffectAnalysis.AnalyzeEffects | src/frontend/src/utils/effectAnalysis.ts:22-32 | the analysis dispatches on the workflow mode; 2D ignores the scene elements |
| EffectGeneration.At | src/frontend/src/utils/effectGeneration.ts:82 | reading a list position gives a value exactly when the position is inside the list |
| EffectGeneration.FirstTint | src/frontend/src/utils/effectGeneration.ts:82 | the first tint is the first dominant colour when there is a non-empty one, white otherwise |
| EffectGeneration.SecondTint | src/frontend/src/utils/effectGeneration.ts:103 | the second tint is the second dominant colour, else the first, else white |
| EffectGeneration.GlowLevel | src/frontend/src/utils/effectGeneration.ts:36 | the glow intensity is 1.2 times the colourfulness up to colourfulness 0.75 and exactly 0.9 above it, never more than 0.9 |
| EffectGeneration.Shadow2D | src/frontend/src/utils/effectGeneration.ts:42 | the 2D shadow is 0.5 for bright logos and 0.2 otherwise |
| EffectGeneration.Shadow3D | src/frontend/src/utils/effectGeneration.ts:179 | the 3D shadow is 0.7 for bright logos and 0.3 otherwise |
| EffectGeneration.SpeedFor | src/frontend/src/utils/effectGeneration.ts:161 | the rotation speed is 2.5, 1.5 or 0.8 as the complexity rises past 0.3 and 0.6 |
| EffectGeneration.AxisFor | src/frontend/src/utils/effectGeneration.ts:165-169 | the rotation axis follows the aspect ratio (wide, tall or square) and its components sum to 1 |
| EffectGeneration.Profile2D | src/frontend/src/utils/effectGeneration.ts:26-151 | the 2D profile has four keyframes over 5 seconds, no rotation, a glow intensity of exactly `Math.min(0.9, colorfulness * 1.2)`, and glow, particles, shadow and tints derived from the analysis |
| EffectGeneration.Profile3D | src/frontend/src/utils/effectGeneration.ts:156-288 | the 3D profile rotates throughout, at the speed and axis derived from the analysis, with the axis swapped at the third keyframe; the glow intensity is exactly `Math.min(0.9, colorfulness * 1.2)` |
| EffectGeneration.Profile | src/frontend/src/utils/effectGeneration.ts:12-21 | the profile has the requested mode, and rotates exactly in 3D |
| EffectGeneration.ProfileTintsValid | src/frontend/src/utils/effectGeneration.ts:49-130 | when the dominant colours are valid colours, every tint in the profile is a valid colour |
| EffectGeneration.ProfileInRanges | src/frontend/src/utils/effectGeneration.ts:26-288 | with a non-negative colourfulness, every intensity and opacity in the profile lies in [0, 1] |
| EffectGeneration.Generate2DProfile | src/frontend/src/utils/effectGeneration.ts:26-151 | the method that pushes the keyframes one by one builds the 2D profile |
| EffectGeneration.Generate3DProfile | src/frontend/src/utils/effectGeneration.ts:156-288 | the method that pushes the keyframes one by one builds the 3D profile |
| EffectGeneration.GenerateAnimationProfile | src/frontend/src/utils/effectGeneration.ts:12-21 | the generated profile is the one for the workflow mode |
| LogoImage.Brightness | src/frontend/src/utils/logoAnalysis.ts:59-60 | a pixel's brightness lies in [0, 1] |
| LogoImage.Max3 | src/frontend/src/utils/logoAnalysis.ts:63 | the maximum of three values is one of them and at least each |
| LogoImage.Min3 | src/frontend/src/utils/logoAnalysis.ts:64 | the minimum of three values is one of them and at most each |
| LogoImage.Saturation | src/frontend/src/utils/logoAnalysis.ts:63-66 | a pixel's saturation lies in [0, 1] and is 0 for black and for greys |
| LogoImage.Quantize | src/frontend/src/utils/logoAnalysis.ts:69 | quantizing a channel gives the multiple of 32 at or just below it |
| LogoImage.Bump | src/frontend/src/utils/logoAnalysis.ts:70 | counting one more pixel adds one to the histogram's total |
| LogoImage.BumpCounts | src/frontend/src/utils/logoAnalysis.ts:70 | counting a pixel adds one to its own bucket and leaves every other bucket's count unchanged |
| LogoImage.BumpMembers | src/frontend/src/utils/logoAnalysis.ts:70 | counting a pixel adds no entry other than its own bucket's |
| LogoImage.BumpDistinct | src/frontend/src/utils/logoAnalysis.ts:70 | the histogram keeps one entry per bucket |
| LogoImage.BumpAppends | src/frontend/src/utils/logoAnalysis.ts:70 | a bucket seen for the first time is added at the end with count 1, as a new map key is |
| LogoImage.CountOfDistinct | src/frontend/src/utils/logoAnalysis.ts:70 | with one entry per bucket, a bucket's count is the count stored in its entry |
| LogoImage.AbsentCountsZero | src/frontend/src/utils/logoAnalysis.ts:70 | a bucket with no entry has count 0 |
| LogoImage.PixelBucket | src/frontend/src/utils/logoAnalysis.ts:69 | a pixel's bucket has quantized channels |
| LogoImage.PixelStep | src/frontend/src/utils/logoAnalysis.ts:49-80 | a transparent pixel changes none of the statistics |
| LogoImage.OpaqueStep | src/frontend/src/utils/logoAnalysis.ts:55-79 | an opaque pixel adds its brightness, saturation, bucket and edge to the statistics |
| LogoImage.OpaqueCount | src/frontend/src/utils/logoAnalysis.ts:56 | at most n of the first n pixels are opaque |
| LogoImage.OpaqueInBucket | src/frontend/src/utils/logoAnalysis.ts:56-70 | the opaque pixels in one bucket are among the opaque pixels |
| LogoImage.StatsTotals | src/frontend/src/utils/logoAnalysis.ts:49-80 | the brightness and saturation totals lie between 0 and the pixel count, edges and histogram count only opaque pixels |
| LogoImage.StatsHistogram | src/frontend/src/utils/logoAnalysis.ts:49-80 | each bucket's count is the number of opaque pixels in it, with one positive entry per quantized bucket |
| LogoImage.CountOfDistinctBump | src/frontend/src/utils/logoAnalysis.ts:70 | the entry of a counted bucket has a positive count |
| LogoImage.TopEntries | src/frontend/src/utils/logoAnalysis.ts:87-89 | the top entries are the three most frequent buckets, or all when fewer |
| LogoImage.TopEntriesFacts | src/frontend/src/utils/logoAnalysis.ts:87-89 | the top entries are in descending count order, come from the histogram and are at least as frequent as any bucket left out |
| LogoImage.BucketColor | src/frontend/src/utils/logoAnalysis.ts:90-93 | a bucket's colour string is a lower-case hex colour that decodes to the bucket's channels |
| LogoImage.DominantColors | src/frontend/src/utils/logoAnalysis.ts:86-93 | the dominant colours are the hex strings of the top buckets, in order, at most three |
| LogoImage.SummaryRanges | src/frontend/src/utils/logoAnalysis.ts:82-106 | brightness, colourfulness and complexity lie in [0, 1], there are at most three quantized dominant colours and the aspect ratio is width over height |
| LogoImage.DominantColorsQuantized | src/frontend/src/utils/logoAnalysis.ts:86-93 | every dominant colour decodes to a quantized bucket |
| LogoImage.AccumulatePixels | src/frontend/src/utils/logoAnalysis.ts:44-80 | the loop's brightness and saturation totals, colour buckets and edge count are the per-pixel fold over every pixel, transparent pixels contributing nothing |
| LogoImage.AnalyzePixels | src/frontend/src/utils/logoAnalysis.ts:44-106 | the pixel loop followed by the averages, dominant colours and complexity computes the summary of the image |
| AudioMixing.TimesWhere | src/frontend/src/utils/audioMixing.ts:28-48 | at most one trigger per keyframe |
| AudioMixing.ScaleTimes | src/frontend/src/utils/audioMixing.ts:37-42 | scale triggers need a predecessor, so there is at most one fewer than the keyframes |
| AudioMixing.ScanStep | src/frontend/src/utils/audioMixing.ts:28-48 | one loop step appends at most the current keyframe's time to each trigger list |
| AudioMixing.ScanPrefix | src/frontend/src/utils/audioMixing.ts:28-48 | after the loop has visited the first n sorted keyframes, each trigger list holds the times of exactly those keyframes among them that qualify, in order |
| AudioMixing.CalculateSoundEffectTriggers | src/frontend/src/utils/audioMixing.ts:14-60 | the loop over the sorted keyframes computes the trigger lists |
| AudioMixing.TimesWhereMembers | src/frontend/src/utils/audioMixing.ts:32-34 | a time is a trigger exactly when some keyframe at that time meets the condition |
| AudioMixing.ScaleTimesMembers | src/frontend/src/utils/audioMixing.ts:37-42 | a time is a scale trigger exactly when the scale jumps by more than 0.1 into a keyframe at that time |
| AudioMixing.ScaleTimesSound | src/frontend/src/utils/audioMixing.ts:36-41 | every scale trigger time belongs to a keyframe whose scale differs by more than 0.1 from its predecessor's |
| AudioMixing.ScaleTimesComplete | src/frontend/src/utils/audioMixing.ts:36-41 | every keyframe whose scale differs by more than 0.1 from its predecessor's has its time among the scale triggers |
| AudioMixing.TimesWhereSorted | src/frontend/src/utils/audioMixing.ts:26-34 | triggers taken from sorted keyframes are in non-decreasing order |
| AudioMixing.ScaleTimesSorted | src/frontend/src/utils/audioMixing.ts:26-42 | scale triggers taken from sorted keyframes are in non-decreasing order |
| AudioMixing.TriggersWithoutKeyframes | src/frontend/src/utils/audioMixing.ts:49-57 | without keyframes, rotation and particle triggers sit at time 0 exactly when those effects are on, and there are no scale triggers |
| AudioMixing.TriggersWithKeyframes | src/frontend/src/utils/audioMixing.ts:25-48 | with keyframes, every trigger list is sorted, bounded by the keyframe count and holds exactly the times of the keyframes that trigger |
| AudioMixing.ScaleTriggersNeedPredecessor | src/frontend/src/utils/audioMixing.ts:37-42 | scale triggers are exactly the times where the sorted keyframes jump in scale |
| AudioMixing.TriggersIgnoreInputOrder | src/frontend/src/utils/audioMixing.ts:26 | keyframes with distinct times give the same triggers in any input order |
| SceneElements.NewElement | src/frontend/src/hooks/useSceneElements.ts:25-33 | a new element has the stamped id, the chosen type and the default position, scale, rotation, colour and material |
| SceneElements.MergeElement | src/frontend/src/hooks/useSceneElements.ts:41 | each field given in the update replaces the element's, every other field is kept |
| SceneElements.MergeNothing | src/frontend/src/hooks/useSceneElements.ts:41 | an empty update leaves the element unchanged |
| SceneElements.UpdatedElements | src/frontend/src/hooks/useSceneElements.ts:39-43 | updating merges into the elements with the id and leaves the others in place |
| SceneElements.RemovedElements | src/frontend/src/hooks/useSceneElements.ts:46 | removing keeps exactly the elements with another id |
| SceneElements.UpdateMissingId | src/frontend/src/hooks/useSceneElements.ts:41 | an update for an absent id changes nothing |
| SceneElements.RemoveMissingId | src/frontend/src/hooks/useSceneElements.ts:46 | removing an absent id changes nothing |
| SceneElements.FindIndex | src/frontend/src/hooks/useSceneElements.ts:50 | the search finds the first element with the id, and fails exactly when none has it |
| SceneElements.FindSelected | src/frontend/src/hooks/useSceneElements.ts:50 | the selected element is the first in the list with the selected id, and is found whenever one has that id |
| SceneElements.AddedElementIsSelected | src/frontend/src/hooks/useSceneElements.ts:24-50 | after adding an element with a fresh id, the selected element is the new one |
| SceneElements.SceneStore.constructor | src/frontend/src/hooks/useSceneElements.ts:21-22 | the scene starts empty with nothing selected |
| SceneElements.SceneStore.AddElement | src/frontend/src/hooks/useSceneElements.ts:24-37 | adding appends the new element and selects it |
| SceneElements.SceneStore.UpdateElement | src/frontend/src/hooks/useSceneElements.ts:39-43 | updating merges the changes into the elements with the id and keeps the selection |
| SceneElements.SceneStore.RemoveElement | src/frontend/src/hooks/useSceneElements.ts:45-48 | removing drops the elements with the id and clears the selection |
| SceneElements.SceneStore.SetSelectedElementId | src/frontend/src/hooks/useSceneElements.ts:22 | selecting changes only the selection |
| SceneElements.SceneStore.SelectedElement | src/frontend/src/hooks/useSceneElements.ts:50 | the selected element is the first in the scene with the selected id, and is found whenever one has it |
| AudioManager.Toggled | src/frontend/src/hooks/useAudioManager.ts:34-39 | toggling flips the one sound effect and leaves the others |
| AudioManager.ToggleTwice | src/frontend/src/hooks/useAudioManager.ts:34-39 | toggling the same effect twice restores the settings |
| AudioManager.TogglesCommute | src/frontend/src/hooks/useAudioManager.ts:34-39 | two toggles give the same result in either order |
| AudioManager.TrackUrl | src/frontend/src/hooks/useAudioManager.ts:61 | a track's URL is the track id between `/assets/music/` and `.mp3` |
| AudioManager.SelectedAudioUrl | src/frontend/src/hooks/useAudioManager.ts:59-63 | a non-empty custom URL wins, else a non-empty track gives its URL, else there is none |
| AudioManager.UrlAfterTrack | src/frontend/src/hooks/useAudioManager.ts:24-27 | after choosing a track, the audio URL is that track's (none for an empty id) |
| AudioManager.UrlAfterCustom | src/frontend/src/hooks/useAudioManager.ts:29-32 | after choosing custom audio, the audio URL is that audio's (none for an empty URL) |
| AudioManager.TrackUrlInjective | src/frontend/src/hooks/useAudioManager.ts:61 | different tracks have different URLs |
| AudioManager.AudioStore.constructor | src/frontend/src/hooks/useAudioManager.ts:15-21 | nothing is selected and every sound effect is off |
| AudioManager.AudioStore.SelectMusicTrack | src/frontend/src/hooks/useAudioManager.ts:24-27 | choosing a track clears the custom audio and keeps the effects |
| AudioManager.AudioStore.SelectCustomAudio | src/frontend/src/hooks/useAudioManager.ts:29-32 | choosing custom audio clears the track and keeps the effects |
| AudioManager.AudioStore.ToggleSoundEffect | src/frontend/src/hooks/useAudioManager.ts:34-39 | toggling flips one effect and keeps the audio choice |
| LogoUpload.ValidationError | src/frontend/src/hooks/useLogoUpload.ts:16-26 | a file is refused for its type when the type is not PNG, JPEG or SVG, for its size when above 10 MiB, and accepted otherwise |
| LogoUpload.SizeLimitInclusive | src/frontend/src/hooks/useLogoUpload.ts:23-26 | exactly 10 MiB is accepted and one byte more is refused |
| LogoUpload.TypeCheckedFirst | src/frontend/src/hooks/useLogoUpload.ts:16-26 | a file wrong in both type and size is reported for its type |
| LogoUpload.LogoUploadStore.constructor | src/frontend/src/hooks/useLogoUpload.ts:7-10 | the store starts idle with no preview and no error |
| LogoUpload.LogoUploadStore.UploadLogo | src/frontend/src/hooks/useLogoUpload.ts:12-59 | a refused file leaves the preview with an error; an accepted one ends at progress 100 with its URL as preview; a failure to create the URL reports the upload error |
| AudioUpload.Contains | src/frontend/src/hooks/useAudioUpload.ts:23 | a string contains a part exactly when the part occurs at some position |
| AudioUpload.AcceptedTypeUnanchored | src/frontend/src/hooks/useAudioUpload.ts:23 | an accepted type surrounded by any text is still accepted |
| AudioUpload.OggRefused | src/frontend/src/hooks/useAudioUpload.ts:23 | `audio/ogg` is refused |
| AudioUpload.UploadOutcome | src/frontend/src/hooks/useAudioUpload.ts:16-64 | the type is checked first, then the 20 MiB limit, then the object-URL creation (a throw fails with the error's own message), then the metadata load; success, exactly when all pass, records the URL and the file's name, duration and size |
| AudioUpload.SizeLimitInclusive | src/frontend/src/hooks/useAudioUpload.ts:28-31 | exactly 20 MiB is accepted and one byte more is refused |
| AudioUpload.ProgressSteps | src/frontend/src/hooks/useAudioUpload.ts:48-51 | progress is reported from 0 to 100 in steps of 10 |
| AudioUpload.AudioUploadStore.constructor | src/frontend/src/hooks/useAudioUpload.ts:10-14 | the store starts idle with no audio and no error |
| AudioUpload.AudioUploadStore.UploadAudio | src/frontend/src/hooks/useAudioUpload.ts:16-64 | a failure sets its message and keeps the recorded audio; a success reports every progress step and records the URL and metadata |
| AudioUpload.AudioUploadStore.ClearAudio | src/frontend/src/hooks/useAudioUpload.ts:66-74 | clearing forgets the audio, metadata, error and progress |
| AIRecommendations.RotationEntry | src/frontend/src/hooks/useAIAnimationRecommendations.ts:83-94 | the 3D entrance turns half a revolution about the vertical axis while growing from half size and fading in over one second |
| AIRecommendations.FadeAndScale | src/frontend/src/hooks/useAIAnimationRecommendations.ts:95-106 | the 2D entrance rises into place without rotation, with glow only for bright logos |
| AIRecommendations.ColorPulse | src/frontend/src/hooks/useAIAnimationRecommendations.ts:109-118 | the colour pulse has no keyframes, turns glow on and adds particles only in 3D |
| AIRecommendations.GeneratePlaceholderRecommendations | src/frontend/src/hooks/useAIAnimationRecommendations.ts:76-121 | the first suggestion is the entrance for the mode; a second, the colour pulse, appears exactly when the colourfulness exceeds 0.6 |
| AIRecommendations.AIRecommendationStore.constructor | src/frontend/src/hooks/useAIAnimationRecommendations.ts:30-32 | the store starts idle with no suggestions and no error |
| AIRecommendations.AIRecommendationStore.GenerateRecommendations | src/frontend/src/hooks/useAIAnimationRecommendations.ts:34-65 | without a backend the result is empty with an error; otherwise the stored result is the mode's entrance (rotation in 3D, fade-and-scale in 2D) followed, exactly when the colourfulness exceeds 0.6, by the colour pulse; the analysing flag always ends down |
| CameraPresets.OrbitPreset | src/frontend/src/utils/cameraPresets.ts:11-35 | the orbit has nine poses, pose i being the orbit pose for angle i/8 of a turn |
| CameraPresets.GenerateOrbitPreset | src/frontend/src/utils/cameraPresets.ts:11-35 | the loop that pushes one pose per step builds the orbit |
| CameraPresets.DollyZoomPreset | src/frontend/src/utils/cameraPresets.ts:37-64 | the dolly zoom has three poses |
| CameraPresets.FlyThroughPreset | src/frontend/src/utils/cameraPresets.ts:66-95 | the fly-through has four poses |
| CameraPresets.TrackingShotPreset | src/frontend/src/utils/cameraPresets.ts:97-121 | the tracking shot has three poses |
| CameraPresets.OrbitShape | src/frontend/src/utils/cameraPresets.ts:11-35 | orbit poses are at times i/8 of the duration with fov 50, at the logo's height, facing along the negated angle; the other direction turns by the opposite angle |
| CameraPresets.OrbitSpans | src/frontend/src/utils/cameraPresets.ts:17-32 | the orbit runs from time 0 to the duration in non-decreasing time |
| CameraPresets.DollyZoomShape | src/frontend/src/utils/cameraPresets.ts:37-64 | the dolly zoom moves from 8 to 3 units in front of the logo while the fov widens from 35 to 70, spanning the duration |
| CameraPresets.FlyThroughShape | src/frontend/src/utils/cameraPresets.ts:66-95 | the fly-through starts and ends at fixed points whatever the logo position, at times 0, 0.3, 0.7 and 1 of the duration |
| CameraPresets.TrackingShotShape | src/frontend/src/utils/cameraPresets.ts:97-121 | the tracking shot ends where it started, rising one unit and pitching down halfway |
| CameraPresets.PresetsIgnoreSpeed | src/frontend/src/utils/cameraPresets.ts:3-9 | no preset depends on the `speed` option |
| EditorApp.SettingsForMode | src/frontend/src/App.tsx:85-88 | choosing a workflow resets the settings to the defaults with the chosen render mode |
| EditorApp.SnapshotKeyframe | src/frontend/src/App.tsx:110-128 | a new keyframe records the current visual settings at the given time under a stamped id |
| EditorApp.ReplacedKeyframes | src/frontend/src/App.tsx:138-145 | the keyframe with the updated one's id is replaced and every other stays in place |
| EditorApp.RemovedKeyframes | src/frontend/src/App.tsx:147-153 | deleting keeps exactly the keyframes with another id |
| EditorApp.ReplaceMissingId | src/frontend/src/App.tsx:138-145 | an update for an absent id changes nothing |
| EditorApp.RemoveMissingId | src/frontend/src/App.tsx:147-153 | deleting an absent id changes nothing |
| EditorApp.RemoveAppend | src/frontend/src/App.tsx:147-153 | deleting distributes over concatenation |
| EditorApp.DeleteUndoesAdd | src/frontend/src/App.tsx:109-153 | deleting a just-added keyframe restores the keyframe list |
| EditorApp.ReplaceIdempotent | src/frontend/src/App.tsx:138-145 | applying the same update twice is the same as once |
| EditorApp.DisplaySettings | src/frontend/src/App.tsx:227-229 | while playing with keyframes the view shows the interpolated settings, and the stored ones when paused |
| EditorApp.DisplayWithoutKeyframes | src/frontend/src/App.tsx:227-229 | without keyframes the view always shows the stored settings |
| EditorApp.FindKeyframe | src/frontend/src/App.tsx:218-220 | the selected keyframe is the first in the list with the selected id, and is found whenever one has it |
| EditorApp.AddedKeyframeIsSelected | src/frontend/src/App.tsx:109-136 | after adding a keyframe with a fresh id, the selected keyframe is the new one |
| EditorApp.CurrentCameraState | src/frontend/src/App.tsx:232 | a camera state is shown exactly while playing with camera keyframes, and it is the path's interpolated state |
| EditorApp.EditorSession.constructor | src/frontend/src/App.tsx:36-41 | the session starts at workflow selection in 3D with default settings, no logo, no analysis and an empty camera path |
| EditorApp.EditorSession.HandleWorkflowSelected | src/frontend/src/App.tsx:83-90 | choosing a workflow sets the mode, resets the settings for it and moves to the upload step |
| EditorApp.EditorSession.HandleLogoUploaded | src/frontend/src/App.tsx:92-95 | an uploaded logo is recorded and the session moves to the preview step |
| EditorApp.EditorSession.HandleStartOver | src/frontend/src/App.tsx:97-107 | starting over restores the initial session and clears the camera path and its selection |
| EditorApp.EditorSession.HandleAddKeyframe | src/frontend/src/App.tsx:109-136 | adding appends a snapshot keyframe, selects it and clears the camera selection; the step, mode, logo, analysis, camera path and recording state are kept |
| EditorApp.EditorSession.HandleUpdateKeyframe | src/frontend/src/App.tsx:138-145 | updating replaces the keyframe with the same id and keeps the rest of the session: selection, step, mode, logo and analysis |
| EditorApp.EditorSession.HandleDeleteKeyframe | src/frontend/src/App.tsx:147-153 | deleting removes the keyframes with the id and clears the selection; the step, mode, logo and analysis are kept |
| EditorApp.EditorSession.HandleAutoEffectsGenerated | src/frontend/src/App.tsx:155-158 | generated settings replace the animation and the analysis is recorded |
| EditorApp.EditorSession.HandleAddCameraKeyframe | src/frontend/src/App.tsx:160-168 | adding a camera keyframe inserts the default pose at the time into the path and clears the animation keyframe selection; the camera selection and recording state, the settings, step, mode, logo and analysis are kept |
| EditorApp.EditorSession.HandleCaptureKeyframe | src/frontend/src/App.tsx:170-177 | capturing inserts the current camera pose at the current time into the path; the camera selection and recording state are kept, and nothing outside the camera store changes |
| EditorApp.EditorSession.HandleUpdateCameraKeyframe | src/frontend/src/App.tsx:209-216 | an edited camera keyframe overwrites all four fields of the keyframe with its id; the camera selection and recording state are kept, and nothing outside the camera store changes |
| EditorApp.EditorSession.HandleApplyPreset | src/frontend/src/App.tsx:179-207 | a known preset replaces the path with its stamped poses built around the logo position; an unknown name leaves the path as it was |

## Left out

- Rendering, the presentational components and the JSX of `App.tsx`: they bind controls to the settings record and draw the scene, with no logic of their own.
- `slerpRotation` (src/frontend/src/utils/cameraInterpolation.ts:24-45): quaternion blending through three.js. The camera path never calls it; it blends rotations per axis, as modelled.
- `Math.cos`, `Math.sin` and `Math.PI`: the first two are uninterpreted function parameters and `Pi` is a named constant, so nothing depends on their numeric values.
- Floating point: every number is an exact real, so NaN, infinities, rounding error and division by zero are not modelled. An empty or zero-height image is excluded by precondition (`LogoImage.AnalyzePixels`). Interpolating malformed colour strings is excluded by precondition too (`ValidTints`).
- Randomness and clocks: `Date.now()` ids are string parameters. Uniqueness is a precondition wherever a lemma needs it, because the source does not guarantee it (two adds in one millisecond collide). Per-frame time deltas are the `delta` parameter of `TimelinePlayback.Playback.Tick`; `requestAnimationFrame` and `performance.now()` are not modelled.
- The simulated logo-upload progress timer (src/frontend/src/hooks/useLogoUpload.ts:32-40) and the delays before success: the model observes the state when `uploadLogo` returns. On the failure path the source never clears that timer, so progress would later climb back to 90 after the 0 the model records.
- The 50 ms pauses between audio-upload progress steps: the steps are recorded in order, without timing.
- Object-URL creation and release (`URL.createObjectURL`, `URL.revokeObjectURL`): creation is a parameter (an `Option` for the logo, where the catch shows a fixed message; an `ObjectUrl` for the audio, where the catch shows the thrown error's message, whose text is the browser's) and release is not modelled.
- The `Audio` element's metadata load: its outcome is a parameter.
- The default argument `workflowMode = '3D'` of `analyzeEffects` (src/frontend/src/utils/effectAnalysis.ts:26) and `generateAnimationProfile` (src/frontend/src/utils/effectGeneration.ts:15): `EffectAnalysis.AnalyzeEffects` and `EffectGeneration.GenerateAnimationProfile` take the mode as a required parameter, so a caller that omits it passes `Mode3D` explicitly.
- `playPreview` and `stopPreview` (src/frontend/src/hooks/useAudioManager.ts:41-57): they hold a live audio element. The `stopPreview` call in `handleStartOver` is not modelled.
- `mixAudioForExport` (src/frontend/src/utils/audioMixing.ts:62-80): it fetches audio over the network.
- `Image` and canvas loading in `analyzeLogoImage`, with its error and rejection paths: the model starts from the decoded RGBA bytes.
- The backend call in `generateRecommendations`: only whether the actor is initialised is modelled. No exception other than the missing actor can reach the catch block of the placeholder path, so the generic failure message is not modelled.
- Description texts: the AI suggestions carry theirs as strings, with no property stated about their wording; the effect recommendations of src/frontend/src/utils/effectAnalysis.ts are modelled without their free-text description.
- Extra runtime fields that a spread copies into keyframe settings: the suggested keyframes of src/frontend/src/utils/effectAnalysis.ts:57 spread the whole settings object, keyframes and duration included. A keyframe's settings are the visual fields only. At runtime, interpolating at such a keyframe (src/frontend/src/utils/interpolation.ts:56-69 spreads the keyframe's settings over the current ones) would also replace the keyframes, duration and render mode with the copies it holds, so Interpolation.Interpolate's "keeps the keyframes, duration and mode" holds for keyframes whose settings are the visual fields only, as typed.
- TimelinePlayback.Playback.ChangeSettings: replacing the settings does not clamp the current time. The model states when the range invariant survives rather than promising it.
- Video export, frame capture, AI logo generation, prompt generation and backend queries are not part of this model.
