# Handible hand-input pipeline, modelled in Dafny

Handible drives a Three.js scene from a webcam hand detector. Each frame, a
detector result (at most two hands of 21 landmarks, each labelled 'Left' or
'Right') goes through these steps:

- Each hand's raw landmarks are mapped into scene space and pulled toward their
  targets by an exponential moving average (EMA, alpha 0.35).
- A thumb-tip/index-tip pixel distance below 35 counts as a pinch. An edge
  detector turns that verdict into START/END events.
- A palm-facing test drives a palm sphere and, for the 'Left' hand, a floating UI
  panel. The panel has 5-frame show and 15-frame hide counters.
- Every processed hand issues a raycast request.

This project models four parts:

- the module state of `handTracking.js` and its frame update;
- the stand-alone demo page `main.js`, which has its own smoothing (Z factor 5),
  pinch detector and bone-line buffers;
- the pinch helpers of `gestureControl.js`;
- the settings object of `audioSystem.js`.

Modules, one per file:

| file | module | content |
|---|---|---|
| `options.dfy` | `Options` | `Option` |
| `geometry.dfy` | `Geometry` | 3-vectors over the reals, `lerp`, cross product, squared norm |
| `smoothing.dfy` | `Smoothing` | `handConfig`, the landmark mapping, the EMA (a value function and the in-place loop), convergence lemmas |
| `skeleton.dfy` | `Skeleton` | landmark indices, `HAND_CONNECTIONS`, the line-buffer fill loop |
| `pinch.dfy` | `PinchGesture` | `isPinching2D`, the edge detector over verdict streams, delegation to the grab/release stubs |
| `hand_tracking.dfy` | `HandTracking` | `handTracking.js`: a frame as a fold over hands (values), and class `HandTracker` (the module state, updated in place) proved to perform it |
| `main_demo.dfy` | `MainDemo` | `main.js`: class `HandVisuals` (one hand's point array and line buffers), class `DemoTracker`, and the frame as a value |
| `audio.dfy` | `Audio` | class `AudioSystem` and the two console helpers |

Every floating-point quantity is a mathematical real. The square roots of the
source (pixel distance, normal length) are replaced by exact squared comparisons.
Lemmas show these agree with the source's test for the true length.

## Model

| member | source | states |
|---|---|---|
| `Smoothing.SmoothedHand` | handTracking.js:360-378 | one frame of smoothing keeps the number of stored points |
| `Smoothing.TargetPosition` | handTracking.js:372-374 | the frame centre maps to x = 0 and y = 0 and zero depth to the z offset; the affine form is stated by `TargetIsAffine` |
| `Smoothing.SmoothedHandAt` | handTracking.js:360-378 | each reported landmark's point moves 35% of the way to its target; points past the report stay |
| `Smoothing.SmoothInPlace` | handTracking.js:360-378 | the in-place lerp loop leaves the array equal to `SmoothedHand` of its old contents |
| `Smoothing.CentreMapsToDepthAxis` | handTracking.js:12-18 | the frame centre maps onto the depth axis; depth scale 2 for `handConfig`, 5 for main.js |
| `Smoothing.TargetIsAffine` | handTracking.js:372-374 | the mapping is affine: differences scale by the configured factors, X negated |
| `Smoothing.ShippedConfigsMirrorX` | main.js:436-444 | with either shipped configuration X is mirrored, Y inverted, depth order kept |
| `Smoothing.EmaStepContracts` | handTracking.js:377 | one EMA step leaves 0.65 of the gap; squared distance shrinks by 0.4225 and never grows |
| `Smoothing.EmaFixedPoint` | handTracking.js:377 | the target is a fixed point of the smoother |
| `Smoothing.EmaIterateGap` | handTracking.js:10 | after n frames toward a fixed target the gap is 0.65^n times the initial gap |
| `Smoothing.EmaNeverMovesAway` | handTracking.js:10 | with a fixed target the distance never increases from frame to frame |
| `Smoothing.EmaWithinOnePercent` | main.js:43 | from the 11th frame on, a fixed target is within 1% of the initial distance |
| `Smoothing.SmoothedHandIterate` | handTracking.js:360-378 | n frames of a held hand keep the number of points |
| `Smoothing.HeldHandFollowsEma` | handTracking.js:360-378 | a hand held still: every reported landmark follows the single-point EMA, the rest stay |
| `Skeleton.ConnectionsFormHandTree` | handTracking.js:20-26 | the 20 bones form a tree rooted at the wrist: bone i runs from a lower index to landmark i+1, ends are unique |
| `Skeleton.FillConnectionBuffers` | main.js:458-476 | after the loop, bone i's buffer holds the coordinates of its start and end landmarks |
| `PinchGesture.PinchIsDistanceBelowThreshold` | gestureControl.js:6-17 | for the true pixel distance d, the verdict is exactly `d < threshold` |
| `PinchGesture.IsPinching2D` | gestureControl.js:6-17 | a pinch needs a positive threshold; its meaning as a distance test is stated by `PinchIsDistanceBelowThreshold` |
| `PinchGesture.DistanceAtThresholdIsNotPinch` | main.js:246-262 | a distance equal to the threshold is not a pinch (strict comparison) |
| `PinchGesture.PinchReadsOnlyTipsInPlane` | gestureControl.js:7-12 | only landmarks 4 and 8, and only their x and y, decide the verdict |
| `PinchGesture.PinchSymmetricInTips` | gestureControl.js:14-16 | swapping thumb tip and index tip leaves the verdict unchanged |
| `PinchGesture.PinchMonotoneInThreshold` | gestureControl.js:16 | a pinch under a threshold is a pinch under any larger one |
| `PinchGesture.EdgeStep` | handTracking.js:329-337 | the state becomes the verdict; START exactly on released-to-pinched, END exactly on the converse, else no event |
| `PinchGesture.EdgeEvents` | main.js:403-412 | one event slot per frame of the verdict stream |
| `PinchGesture.ExampleStream` | main.js:403-412 | a concrete stream: F,F,T,T,T,F,F,T gives START at 2, END at 5, START at 7 |
| `PinchGesture.StateIsLastVerdict` | main.js:403-412 | the stored state is the last verdict of the stream |
| `PinchGesture.EventsAlternate` | handTracking.js:329-337 | emitted events alternate, the first is START iff the hand starts released; the state is the parity of the events |
| `PinchGesture.DelegationIsOneToOne` | gestureControl.js:19-27 | each START calls `grabNearestObject` once, each END `releaseObject` once, in order |
| `PinchGesture.GrabsAndReleasesAlternate` | main.js:265-299 | from a released hand, stub calls alternate grab, release, grab, ... |
| `HandTracking.WristPlusForwardIsMiddleBase` | handTracking.js:167-181 | wrist plus forward axis is the middle-finger base; out-of-range slots give the origin and (0,0,-1) |
| `HandTracking.WristPosition` | handTracking.js:167-172 | landmark 0 of an existing slot, else the origin |
| `HandTracking.ForwardAxis` | handTracking.js:174-181 | added to the wrist it reaches the middle-finger base; (0,0,-1) for a missing slot |
| `HandTracking.PalmFacingMatchesNormalisedNormal` | handTracking.js:184-200 | the square-free palm test equals "normalised normal z, negated for 'Left', exceeds 0.5" |
| `HandTracking.LeftAndRightNeverBothFacing` | handTracking.js:193-199 | the same landmarks are never facing under both labels |
| `HandTracking.IsPalmFacing` | handTracking.js:184-200 | a facing palm has a normal with non-zero z; a hand whose index base sits on the wrist never faces; the test itself is related to the source's by `PalmFacingMatchesNormalisedNormal` |
| `HandTracking.PalmCentreFollowsHand` | handTracking.js:209-215 | the palm centre moves with the hand and is the point itself for a collapsed hand |
| `HandTracking.PalmCentre` | handTracking.js:209-215 | a hand whose five palm landmarks coincide has its centre there; translation is stated by `PalmCentreFollowsHand` |
| `HandTracking.UpdatedPalmSphere` | handTracking.js:203-228 | the sphere is visible exactly when the palm faces; a facing palm places it at `PalmCentre`, otherwise it stays where it was |
| `HandTracking.UIPanelStep` | handTracking.js:231-261 | no panel: nothing changes; facing extends one streak and clears the other; a hidden panel is shown only at a facing streak >= 5, where the smoothed UI position moves 35% toward wrist + offset and the panel is placed there; a non-facing step hides it exactly when the false streak reaches 15; otherwise position unchanged |
| `HandTracking.FrameStart` | handTracking.js:296-320 | the first two palm spheres and the panel are hidden, `isUIActive` cleared, nothing else changes |
| `HandTracking.ReadHand` | handTracking.js:327-377 | a hand's reading keeps 21 points |
| `HandTracking.EdgeCalls` | handTracking.js:329-337 | at most one edge call per hand, for that hand |
| `HandTracking.HandStep` | handTracking.js:323-449 | one hand: its pinch flag takes the verdict, its slot the smoothed points, its palm sphere `UpdatedPalmSphere` of the facing verdict, `isUIActive` the facing verdict iff 'Left'; state stays well formed |
| `HandTracking.ProcessHands` | handTracking.js:322-451 | folding the hands keeps the state well formed and the slot count |
| `HandTracking.FrameReadings` | handTracking.js:323-326 | one 21-point reading per processed hand |
| `HandTracking.Frame` | handTracking.js:277-468 | a frame keeps the state well formed and the slot count |
| `HandTracking.Setup` | handTracking.js:60-165 | two more slots at the origin after the existing ones, a hidden panel, well formed |
| `HandTracking.Cleanup` | handTracking.js:263-275 | the slot arrays are emptied, the panel dropped, `isUIActive` cleared, pinch flags and calls kept, well-formedness preserved |
| `HandTracking.CleanupResetsTracking` | handTracking.js:263-275 | clean-up empties slots, zeroes counters, clears `isUIActive`, drops the panel; pinch flags survive; the next frame processes no hand |
| `HandTracking.HandStepEffect` | handTracking.js:329-449 | a hand step appends its edge call then its raycast carrying the `isUIActive` it leaves |
| `HandTracking.StepPanel` | handTracking.js:443-446 | a 'Right' hand leaves the panel alone; after a 'Left' hand a hidden panel is visible iff the streak reached 5 |
| `HandTracking.ProcessHandsSlotPinch` | handTracking.js:329-337 | a processed slot's flag is its verdict; other slots keep their flags |
| `HandTracking.ProcessHandsSlotPoints` | handTracking.js:360-378 | a processed slot holds its smoothed points; other slots keep theirs |
| `HandTracking.ProcessHandsSlotPalm` | handTracking.js:439-440 | a processed slot's palm sphere follows its facing verdict; other slots keep theirs |
| `HandTracking.ProcessHandsSlotState` | handTracking.js:323-449 | both halves of a slot's state after the first n hands |
| `HandTracking.LastLeft` | handTracking.js:443-446 | the last processed 'Left' hand is in range, processed and labelled 'Left' |
| `HandTracking.UIActiveIsLastLeftVerdict` | handTracking.js:320-446 | `isUIActive` after n hands is the facing verdict of the last 'Left' hand, else its value before them |
| `HandTracking.LogStep` | handTracking.js:332-449 | processing a hand appends exactly that hand's calls |
| `HandTracking.ProcessHandsLog` | handTracking.js:323-449 | the log grows by hand 0's calls then hand 1's |
| `HandTracking.FrameLoopStep` | handTracking.js:323-449 | reading a slot when the loop reaches it gives the frame's reading, so the fold is the loop |
| `HandTracking.FrameSlotState` | handTracking.js:277-451 | after a frame a processed hand's flag is its verdict, its points moved one EMA step, and its palm sphere is visible exactly when the smoothed palm faces, placed at the palm centre; an unprocessed slot keeps flag and points and its sphere is hidden in place |
| `HandTracking.SlotLogIsHandCalls` | handTracking.js:329-449 | a slot's calls are START/END on the right edges, then one raycast, with the right `isUIActive` |
| `HandTracking.FrameCalls` | handTracking.js:277-468 | a frame appends hand 0's calls then hand 1's, and nothing else |
| `HandTracking.PanelPresenceKept` | handTracking.js:231-233 | no hand creates or removes the panel |
| `HandTracking.PanelUntouchedWithoutLeft` | handTracking.js:443-446 | without a processed 'Left' hand the panel and counters are unchanged |
| `HandTracking.PanelAfterOneLeft` | handTracking.js:236-260 | from a hidden panel, one 'Left' hand leaves it visible iff the facing streak reached 5 |
| `HandTracking.PanelVisibleOnlyOnFacingStreak` | handTracking.js:308 | after any frame with at most one processed 'Left' hand the panel is visible iff the streak reached 5; with none it is hidden |
| `HandTracking.LeftStepCounters` | handTracking.js:236-258 | a 'Left' hand step extends one streak and clears the other; the panel shows at a streak of 5, is left alone below a false streak of 15 and is hidden from 15 on |
| `HandTracking.TwoLeftHandsCanLeavePanelVisibleWithZeroStreak` | handTracking.js:236-258 | with both hands labelled 'Left', a facing hand at streak 4 then a non-facing one leave the panel visible with a facing streak of 0 |
| `HandTracking.HandTracker.constructor` | handTracking.js:28-58 | the loaded module: no slots, no panel, both hands released |
| `HandTracking.HandTracker.SetupHandTracking` | handTracking.js:60-165 | the state becomes `Setup` of the old one, with two fresh arrays appended |
| `HandTracking.HandTracker.AddSlots` | handTracking.js:112-165 | two new zeroed slots and hidden palm spheres are appended |
| `HandTracking.HandTracker.CleanupHandTracking` | handTracking.js:263-275 | the state becomes `Cleanup` of the old one |
| `HandTracking.HandTracker.GetWristPosition` | handTracking.js:167-172 | landmark 0 of an existing slot, else the origin |
| `HandTracking.HandTracker.GetForwardDirection` | handTracking.js:174-181 | wrist-to-middle-base of an existing slot, else (0,0,-1); unnormalised |
| `HandTracking.HandTracker.UpdateUIPanel` | handTracking.js:231-261 | the state moves exactly as `UIPanelStep` |
| `HandTracking.HandTracker.DetectPinchEdge` | handTracking.js:327-337 | flag and log move exactly as the edge detector says |
| `HandTracking.HandTracker.SmoothSlot` | handTracking.js:360-378 | slot h is smoothed in place; nothing else changes |
| `HandTracking.HandTracker.ShowFacing` | handTracking.js:439-446 | the palm sphere, and for 'Left' the panel and `isUIActive`, follow the verdict |
| `HandTracking.HandTracker.ProcessHand` | handTracking.js:323-449 | the state becomes `HandStep` with the hand's reading |
| `HandTracking.HandTracker.StartFrame` | handTracking.js:296-320 | the state becomes `FrameStart` of the old one |
| `HandTracking.HandTracker.PredictWebcam` | handTracking.js:277-468 | the state becomes `Frame` of the old one; the slot arrays are kept |
| `MainDemo.AsWrittenNeverWaitsForVideo` | main.js:337-343 | with the detector loaded the written guard never waits, even at ready state 0 |
| `MainDemo.GuardsDisagreeOnlyBeforeData` | main.js:337-343 | the written and intended guards differ exactly when the detector is loaded and the video has no current frame |
| `MainDemo.SkipAsWritten` | main.js:337-343 | the written guard skips exactly when the detector is missing |
| `MainDemo.SkipFrame` | main.js:337-343 | the intended guard skips whenever the written one does, and agrees with it once the video has a current frame |
| `MainDemo.Bones` | main.js:458-476 | one buffer per bone |
| `MainDemo.BonesEndAtEveryLandmark` | main.js:458-476 | line j-1 ends at landmark j, and no other line does |
| `MainDemo.DemoInitial` | main.js:195-238 | the initial page state is well formed |
| `MainDemo.DemoHandStep` | main.js:400-476 | the hand's flag takes the verdict, its points one EMA step with Z factor 5, and it is shown |
| `MainDemo.DemoProcess` | main.js:397-477 | folding the hands keeps the state well formed |
| `MainDemo.DemoFrame` | main.js:336-480 | a frame keeps the state well formed |
| `MainDemo.DemoFrameAsWritten` | main.js:336-480 | a frame under the guard as written keeps the state well formed |
| `MainDemo.AsWrittenFrameRunsBeforeData` | main.js:337-357 | the written and intended frames agree except with the detector loaded and no video data, where the written one runs the frame (hiding both hands when none is detected) and the intended one changes nothing |
| `MainDemo.DemoSlotAfter` | main.js:400-476 | a processed slot holds its verdict, smoothed points, bone buffers and is shown; others untouched |
| `MainDemo.DemoStubsAfter` | main.js:403-412 | the stubs called are hand 0's edge then hand 1's |
| `MainDemo.DemoFrameEffect` | main.js:336-480 | skipped frame: no change; else detected hands shown and updated, others hidden and kept, stubs in hand order |
| `MainDemo.HandVisuals.constructor` | main.js:195-238 | 21 points at the origin and 20 zeroed six-float buffers |
| `MainDemo.HandVisuals.Update` | main.js:428-476 | points smoothed in place, then buffers redrawn from them |
| `MainDemo.DemoTracker.constructor` | main.js:195-238 | the page state after `init()` creates both hand slots, with `isPinchingState` (line 28) both false |
| `MainDemo.DemoTracker.PredictWebcam` | main.js:336-480 | the state becomes `DemoFrame` of the old one |
| `MainDemo.DemoTracker.HideHands` | main.js:354-357 | both hands hidden, nothing else changes |
| `MainDemo.DemoTracker.ProcessHand` | main.js:400-476 | the state becomes `DemoHandStep` of the old one |
| `MainDemo.DemoTracker.DetectPinchEdge` | main.js:400-426 | flag and stubs move as the edge detector says; the hand is shown |
| `MainDemo.NewLineBuffers` | main.js:226-236 | twenty fresh, distinct, zeroed six-float buffers |
| `Audio.Clamp01` | audioSystem.js:155 | the result is in [0,1]; equals v inside, 0 below, 1 above |
| `Audio.Clamp01Idempotent` | audioSystem.js:155 | clamping twice is clamping once |
| `Audio.PeakShare` | audioSystem.js:45-143 | each sound peaks at a share of the volume in (0,1] |
| `Audio.InitialSettings` | audioSystem.js:5-20 | volume 0.3; enabled exactly when the audio context could be created |
| `Audio.WithVolume` | audioSystem.js:154-156 | the new volume lies in [0,1] and is v itself when v does; the flag and the context are kept |
| `Audio.Toggled` | audioSystem.js:175-179 | the flag is negated; volume and context are kept |
| `Audio.Scheduled` | audioSystem.js:24-124 | a tone is scheduled iff context and enabled; it peaks at volume times the sound's share |
| `Audio.SetVolumeIdempotent` | audioSystem.js:154-156 | setting the same volume twice is setting it once; only the volume changes, it ends in [0,1] |
| `Audio.ToggleTwiceRestores` | audioSystem.js:175-179 | toggling twice restores the settings; one toggle negates the flag only |
| `Audio.TonesStayWithinVolume` | audioSystem.js:24-124 | tones peak within [0, volume]; disabled or context-less objects schedule nothing |
| `Audio.AudioSystem.constructor` | audioSystem.js:5-20 | the settings are `InitialSettings`, nothing scheduled |
| `Audio.AudioSystem.SetVolume` | audioSystem.js:154-156 | volume becomes the clamped value, nothing else changes |
| `Audio.AudioSystem.SetEnabled` | audioSystem.js:158-160 | only the flag changes |
| `Audio.AudioSystem.GetVolume` | audioSystem.js:162-164 | returns the stored volume, which lies in [0,1] |
| `Audio.AudioSystem.GetEnabled` | audioSystem.js:166-168 | returns the flag |
| `Audio.AudioSystem.Play` | audioSystem.js:23-55 | the guard, then one tone at the sound's share of the volume |
| `Audio.AudioSystem.CreateClickSound` | audioSystem.js:23-55 | settings unchanged; a click tone iff context and enabled |
| `Audio.AudioSystem.CreateSuccessSound` | audioSystem.js:58-89 | settings unchanged; a success tone iff context and enabled |
| `Audio.AudioSystem.CreateHoverSound` | audioSystem.js:92-120 | settings unchanged; a hover tone iff context and enabled |
| `Audio.AudioSystem.CreateErrorSound` | audioSystem.js:123-152 | settings unchanged; an error tone iff context and enabled |
| `Audio.ToggleButtonSounds` | audioSystem.js:175-179 | negates the flag and returns the new value |
| `Audio.SetButtonVolume` | audioSystem.js:181-185 | stores and returns the clamped volume |

## Left out

- `HandTracking.PanelVisibleOnlyOnFacingStreak`: stated only for frames with at most one processed 'Left' hand. The source does not stop the detector from labelling both hands 'Left'. Then the property fails: `HandTracking.TwoLeftHandsCanLeavePanelVisibleWithZeroStreak` shows a frame that ends with the panel visible and a facing streak of 0.
- `MainDemo.DemoFrame`, `MainDemo.DemoFrameEffect` and `MainDemo.DemoTracker.PredictWebcam` skip a frame on the intended readiness guard, not on main.js:339 as written. With the detector loaded and `readyState` 0 or 1, main.js runs the frame and these members leave the state unchanged. `MainDemo.DemoFrameAsWritten` is the frame as written, and `MainDemo.AsWrittenFrameRunsBeforeData` states the difference (see Findings).
- Rendering, meshes, materials, the sphere and capsule positions, fingertip colours, the z-arrow and laser visuals (handTracking.js:399-436) and the ray/cone hiding for undetected hands: these are visual only. Only visibility flags and positions that feed back into state are kept.
- The detector itself, `requestAnimationFrame`, `performance.now()`, the FPS counter and `lastVideoTime`. The detector result is a parameter. It has at most two hands of 21 landmarks, as the detector is configured.
- handTracking.js's own readiness guard (line 278): `HandTracker.PredictWebcam` models a frame that gets past it.
- The chessboard highlight reset (handTracking.js:310-317): it touches scene objects outside the module.
- `handConfig.rotationOffset`: it is the identity Euler angle. The centring-and-rotating vectors (lines 363-369) are unused, and the rotation loop (lines 386-393) then maps each point to wrist + (p - wrist) = p. Quaternions are not modelled.
- `GetForwardDirection` / `ForwardAxis`: returns the wrist-to-middle-base vector without `normalize()`. A square root cannot be defined over Dafny's reals without an axiom. The direction is the same. The length is not 1.
- IEEE-754 rounding and `Float32Array` precision: all arithmetic is exact. Points match the source only up to rounding.
- NaN and undefined volumes: `Math.max(0, Math.min(1, NaN))` is NaN, so `setVolume(NaN)`, or `setButtonVolume()` with no argument, stores a volume outside [0,1]. Reals have no NaN, so `Audio.AudioSystem.SetVolume`, `Audio.SetButtonVolume` and `Audio.AudioSystem.GetVolume` promise [0,1] only for numeric arguments.
- What `onPinchStart` and `onPinchEnd` could observe: handTracking.js sets the pinch flag before calling them. The recorded calls carry the hand, handedness and `isUIActive`, not the flag.
- The internals of `updateRaycast`, `onPinchStart` and `onPinchEnd` as handTracking.js calls them: each call is recorded in `calls` with its arguments. gestureControl.js as it stands defines neither `updateRaycast` nor `isPinchingState`. The pinch flags are modelled as a two-entry field that clean-up does not reset.
- `grabbedObject` and `raycaster` in gestureControl.js and main.js: never assigned after initialisation. `grabNearestObject` and `releaseObject` only log, so they are recorded as `Stub` calls.
- The Web Audio scheduling inside the `create*Sound` methods: oscillator frequencies, ramps and timing. `resume()` of a suspended context and the `try`/`catch` that swallows errors are also left out. Only the guard and the peak gain of each envelope are kept.
- `console.log`/`console.warn`, the `window` registration of the console helpers, and `getHandTrackingData`.

## Findings

| source | as written | input that shows it | evidently intended | confidence | as-written member | corrected member |
|---|---|---|---|---|---|---|
| main.js:337-343 | `!video.readyState >= HTMLMediaElement.HAVE_CURRENT_DATA` parses as `(!video.readyState) >= 2`, a boolean compared with 2, which is never true, so the guard waits only for the detector | detector loaded, `video.readyState == 0` (HAVE_NOTHING): the frame is processed | wait until `video.readyState >= HAVE_CURRENT_DATA`, as handTracking.js:278 does | high; not executed | `MainDemo.AsWrittenFrameRunsBeforeData` | `MainDemo.GuardsDisagreeOnlyBeforeData` |
