# PlatformerCamera in Dafny

A model of the per-frame controller logic of a Unity 3D platformer. Four parts are modelled:

- **The third-person camera (`PlatformerCamera`).** It has four modes: Automatic, Manual, Hybrid and FirstPerson. `Update` resolves the frame's view input into a mode and runs the manual slider arithmetic. `LateUpdate` places the target for the current mode and applies the timed transitions: Manual decays to Hybrid after a delay, and Hybrid decays to Automatic once the blend ratio reaches 1.
- **Terrain sensing (`HeightModifier.Calculate`).** A hill probe and a cliff probe decide a blend ratio and the targets toward which two smoothed offsets move.
- **The player's locomotion controller (`Movement`).** It covers:
  - a low-passed stick with a dead zone;
  - a debounced "grounded" test;
  - the ground jump, double jump and extended jump, with gravity paid on every frame;
  - the one-shot displacement nullifier;
  - the freeze toggle.
- **Point-of-interest zones (`CameraModifier`)**, which claim and release the camera's single point-of-interest slot and swap its attribute profiles.

The attribute profiles (`CameraAttributes`, `HeightAttributes`) are immutable datatypes with their default values.

Objects that the game mutates in place are classes: the camera, the sensor, the locomotion controller, zones and transforms. Their methods carry `modifies` frames and are proved against pure functions, and the properties are proved about those functions. Floats are reals. Several engine services are parameters or per-frame inputs:

- `Mathf.SmoothDamp`;
- `AnimationCurve.Evaluate`;
- vector normalisation;
- distances;
- the linecast and the two terrain probes;
- the input axes and buttons;
- the clock;
- the turn from stick space to the camera's facing.

Mathf's clamping interpolation and C#'s truncating float remainder are written out in `Unity`.

Notable behaviours of the code, modelled as written:

- **`manualDistance` is not continuous at pitch 0.** The lerp endpoints below zero run from the base distance toward the manual maximum, so the value jumps back to the base distance at 0. `ManualDistanceJumpsAtZero` exhibits this. `manualDistanceUp` is continuous, which `ManualDistanceUpContinuousAtZero` proves.
- **A total miss of both probes reports a ratio of 1, not -1.** The sensor's comment calls -1 the cliff end.
- **A zone's exit decides release by comparing the slot with its own point of interest.** The "had a point of interest" snapshot taken on entry is never consulted. `ExitIgnoresPriority` shows a zone that entered while another held the slot and still clears the slot on exit.
- **The serialised jump windows are zero** because `(1 / 60)` is integer division. The windows are therefore constructor parameters, required to be positive.

## Model

| member | source | states |
|---|---|---|
| Unity.Lerp | Assets/Scripts/Camera/PlatformerCamera.cs:173-174 | Mathf.Lerp clamps its parameter: t ≤ 0 gives a, t ≥ 1 gives b, and the result always lies between a and b |
| Unity.Clamp | Assets/Scripts/Camera/PlatformerCamera.cs:170 | the result lies in [lo, hi]; an in-range value is kept, and a value below or above is pinned at lo or hi |
| Unity.Clamp01 | Assets/Scripts/Camera/PlatformerCamera.cs:237 | the result lies in [0, 1]; an in-range value is kept, and values at or beyond either end give that end |
| Unity.LerpVec | Assets/Scripts/Camera/PlatformerCamera.cs:283 | Vector3.Lerp clamps its parameter: t ≤ 0 gives a, t ≥ 1 gives b, and each component lies between the endpoints' components |
| Unity.FloatRem | Assets/Scripts/Camera/PlatformerCamera.cs:168 | C#'s float `%`: the remainder lies strictly inside (-m, m), takes the dividend's sign, and is the dividend itself when that is already in [0, m) |
| Unity.FloatRemOneWhole | Assets/Scripts/Camera/PlatformerCamera.cs:168 | the remainder by 1 differs from the dividend by a whole number |
| Attributes.LinearCurve | Assets/Scripts/Camera/CameraAttributes.cs:14 | the default mode curve is the identity on [0, 1] and is held at its end keys outside |
| Attributes.DefaultCameraAttributes | Assets/Scripts/Camera/CameraAttributes.cs:6-18 | the default profile has a positive auto-switch time, manual min < base < manual max for both distance and height, an identity mode curve, and a positive hybrid delay |
| Attributes.DefaultHeightAttributes | Assets/Scripts/Camera/HeightAttributes.cs:10-18 | mask 251 hits exactly layers 0-7 except IgnoreRaycast; both cast lengths are positive; the hill probe starts farther out than the cliff probe; the hill distance target exceeds the cliff one; the cliff height target exceeds the hill one |
| HeightSensing.HitRatio | Assets/Scripts/Camera/PlatformerCamera.cs:32 | the normalised hit lies in [0, 1] exactly when the hit is within [min, min + max], is 0 exactly at min, and times max gives back the hit's offset past min |
| HeightSensing.SensedRatio | Assets/Scripts/Camera/PlatformerCamera.cs:29-44 | a hill hit gives the hill ratio; otherwise a cliff hit gives the cliff ratio; a total miss gives exactly 1 |
| HeightSensing.BumpTargets | Assets/Scripts/Camera/PlatformerCamera.cs:33-34 | a hill hit selects the hill (y) height and distance targets, anything else the cliff (x) targets |
| HeightSensing.LastHit | Assets/Scripts/Camera/PlatformerCamera.cs:29-43 | the kept hit is absent exactly when both probes miss |
| HeightSensing.HeightModifier.constructor | Assets/Scripts/Camera/PlatformerCamera.cs:7-16 | zero offsets and velocities, smoothing time 0.4, ratio 0 |
| HeightSensing.HeightModifier.Calculate | Assets/Scripts/Camera/PlatformerCamera.cs:18-48 | the new ratio is the sensed ratio of the probes; each offset and its velocity are one SmoothDamp step from their old values toward the selected target; the smoothing time is unchanged |
| CameraControl.LookDirectionIsHorizontal | Assets/Scripts/Camera/PlatformerCamera.cs:251-257 | the look direction is taken in the horizontal plane: changing the height of the camera or of the follow target leaves it unchanged |
| CameraControl.CameraDirectionIsHorizontal | Assets/Scripts/Camera/PlatformerCamera.cs:388-391 | the camera direction drops the facing's vertical component: changing the camera's tilt leaves it unchanged |
| CameraControl.NormalPointOfInterest | Assets/Scripts/Camera/PlatformerCamera.cs:403-406 | the normal point of interest lies exactly one look direction ahead of the camera |
| CameraControl.UserInputThreshold | Assets/Scripts/Camera/PlatformerCamera.cs:157-160 | raising the dead-zone threshold can only suppress view input; a stick at rest counts as input exactly when the threshold is 0 or less |
| CameraControl.FirstPersonNeedsPinnedPitch | Assets/Scripts/Camera/PlatformerCamera.cs:215 | with the pitch slider in range, first person is requested exactly when it is allowed, the slider is pinned at 1 and the smoothed vertical axis exceeds 0.9 |
| CameraControl.ModeAfterInput | Assets/Scripts/Camera/PlatformerCamera.cs:213-227 | reset forces Automatic unless view input overrides it in the same frame; view input outside FirstPerson forces Manual; FirstPerson is left for Manual once it stops being allowed; Update itself never enters Hybrid or FirstPerson; with no reset and no input the mode is kept; a first-person request in the same frame blocks the manual rule; view input in FirstPerson keeps FirstPerson while it is allowed |
| CameraControl.SmoothedAxis | Assets/Scripts/Camera/PlatformerCamera.cs:164-165 | the smoothed view axis lies between its previous value and the raw axis |
| CameraControl.YawStep | Assets/Scripts/Camera/PlatformerCamera.cs:166-171 | after a push outside the dead zone, or from any yaw in [-1, 1), the yaw lies in [0, 1); inside the dead zone a non-negative yaw is unchanged |
| CameraControl.YawStepTurns | Assets/Scripts/Camera/PlatformerCamera.cs:167-171 | outside the dead zone the new yaw equals yaw + x·\|x\|/90 up to a whole number of turns |
| CameraControl.PitchStep | Assets/Scripts/Camera/PlatformerCamera.cs:169-170 | the pitch stays in [-1, 1], moves by y·\|y\|/20 when that stays in range, is pinned at exactly 1 or -1 by a step past that end, moves in the stick's direction, and is unchanged inside the dead zone |
| CameraControl.HeldRunSplit | Assets/Scripts/Camera/PlatformerCamera.cs:164-170 | a run of held-stick manual frames of length a + b is a run of a frames followed by a run of b frames |
| CameraControl.HeldAxisSettles | Assets/Scripts/Camera/PlatformerCamera.cs:164-165 | with the raw stick held fully up, five manual frames from any in-range slider and axis lift the smoothed vertical axis above 0.9 and keep the slider in range |
| CameraControl.HeldPitchClimbs | Assets/Scripts/Camera/PlatformerCamera.cs:164-170 | once the smoothed axis is above 0.9, every further held frame raises the slider by at least 1/25 until it is pinned at 1, and the axis stays above 0.9 |
| CameraControl.FirstPersonReachable | Assets/Scripts/Camera/PlatformerCamera.cs:164-215 | holding the raw stick fully up for 55 manual frames, through the axis smoothing, from any in-range slider and axis, reaches a state in which the next Update requests first person when it is allowed |
| CameraControl.ManualDistance | Assets/Scripts/Camera/PlatformerCamera.cs:173 | the manual distance is the base distance at pitch -1 and at 0 and the manual minimum at 1, and lies between base and minimum for pitch ≥ 0 |
| CameraControl.ManualDistanceBelowZero | Assets/Scripts/Camera/PlatformerCamera.cs:173 | below zero the distance rises linearly from the base distance and its gap to the manual maximum shrinks in proportion to -pitch |
| CameraControl.ManualDistanceJumpsAtZero | Assets/Scripts/Camera/PlatformerCamera.cs:173 | however close below 0, some pitch has a distance at least half the base-to-maximum gap away from the distance at 0: not continuous at 0 |
| CameraControl.ManualDistanceUp | Assets/Scripts/Camera/PlatformerCamera.cs:174 | the manual height is the manual maximum at -1, the base height at 0 and the manual minimum at 1, and stays between the endpoints of each side |
| CameraControl.ManualDistanceUpLinear | Assets/Scripts/Camera/PlatformerCamera.cs:174 | on each side of 0 the height's distance from the base height is proportional to \|pitch\| |
| CameraControl.ManualDistanceUpContinuousAtZero | Assets/Scripts/Camera/PlatformerCamera.cs:174 | for every tolerance there is a neighbourhood of pitch 0 on which the height stays within it of the base height |
| CameraControl.ModeRatio | Assets/Scripts/Camera/PlatformerCamera.cs:237 | the blend ratio lies in [0, 1]; it is 0 exactly until the hybrid delay has passed and 1 exactly once the auto-switch time has also passed |
| CameraControl.ModeRatioMonotone | Assets/Scripts/Camera/PlatformerCamera.cs:237 | with the last manual time fixed, the ratio never decreases as time passes |
| CameraControl.ModeAfterLate | Assets/Scripts/Camera/PlatformerCamera.cs:267-291 | Manual becomes Hybrid exactly when the hybrid delay has passed; Hybrid becomes Automatic exactly when the ratio is at least 1; Automatic and FirstPerson are kept |
| CameraControl.AutomaticOffsets | Assets/Scripts/Camera/PlatformerCamera.cs:243 | the automatic height and distance lie between the profile's values and the sensed bump values, and equal one or the other at ratio ≤ 0 or ≥ 1 |
| CameraControl.AutomaticTarget | Assets/Scripts/Camera/PlatformerCamera.cs:240-244 | on flat ground (ratio ≤ 0) the automatic target is placed by the profile's own height and distance |
| CameraControl.ManualTarget | Assets/Scripts/Camera/PlatformerCamera.cs:246-249 | with both manual distances 0 the manual target is the follow target itself |
| CameraControl.ManualTargetDistance | Assets/Scripts/Camera/PlatformerCamera.cs:246-249 | in an orthonormal manual frame the target lies at squared distance manualDistanceUp² + manualDistance² from the follow target |
| CameraControl.HybridTarget | Assets/Scripts/Camera/PlatformerCamera.cs:277-283 | at curve value ≤ 0 the hybrid target is the manual target, at ≥ 1 the unmodified automatic target |
| CameraControl.Collide | Assets/Scripts/Camera/PlatformerCamera.cs:361-367 | an unobstructed target is kept; an obstructed one sits at the hit point pushed out along the normalised surface normal by the multiplier |
| CameraControl.PlatformerCamera.constructor | Assets/Scripts/Camera/PlatformerCamera.cs:147-155 | the camera starts Automatic with the default profiles, an empty slot, ratio 1, zero sliders and axes, first person allowed but not entered, and a fresh sensor with zero offsets and velocities, ratio 0, no hit and smoothing time 0.4 |
| CameraControl.PlatformerCamera.CurrentPointOfInterest | Assets/Scripts/Camera/PlatformerCamera.cs:398-401 | the slot's position when one is set, else the normal point of interest |
| CameraControl.PlatformerCamera.AutomaticLook | Assets/Scripts/Camera/PlatformerCamera.cs:242 | with a point of interest set, the look direction is the normalised direction from the camera to it; with an empty slot it is left as given |
| CameraControl.PlatformerCamera.SetState | Assets/Scripts/Camera/PlatformerCamera.cs:377-380 | the mode becomes the given one |
| CameraControl.PlatformerCamera.ManualStateUpdate | Assets/Scripts/Camera/PlatformerCamera.cs:162-177 | the axes, yaw, pitch, manual distance and manual height take their step values, and the slider ranges are preserved |
| CameraControl.PlatformerCamera.TakeManual | Assets/Scripts/Camera/PlatformerCamera.cs:219-226 | the camera becomes Manual, leaves first person and records the time; the manual frame is re-recorded only when coming from Automatic or FirstPerson |
| CameraControl.PlatformerCamera.ResolveMode | Assets/Scripts/Camera/PlatformerCamera.cs:213-227 | the new mode is the mode after input; taking manual control records the time and the frame as TakeManual says, and otherwise these are unchanged |
| CameraControl.PlatformerCamera.Sliders | Assets/Scripts/Camera/PlatformerCamera.cs:229-235 | outside Automatic the slider step runs; in Automatic the yaw and both axes are zeroed while pitch and manual distances are kept |
| CameraControl.PlatformerCamera.Update | Assets/Scripts/Camera/PlatformerCamera.cs:209-238 | the whole frame: first-person request, mode after input, manual bookkeeping, slider step or reset, and the blend ratio for the new last manual time |
| CameraControl.PlatformerCamera.CompleteFirstPersonEntry | Assets/Scripts/Camera/PlatformerCamera.cs:190-205 | if the pitch is still pinned and the stick still pushed, the camera is in first person with the pitch reset and the yaw taken from the follow target's heading; otherwise nothing changes |
| CameraControl.PlatformerCamera.AutomaticTargetPosition | Assets/Scripts/Camera/PlatformerCamera.cs:240-244 | the look direction is re-aimed at the point of interest when one is set, and the target is the automatic target for the last sensor output |
| CameraControl.PlatformerCamera.LateUpdateAutomaticState | Assets/Scripts/Camera/PlatformerCamera.cs:259-265 | the target is the collision-corrected automatic target |
| CameraControl.PlatformerCamera.LateUpdateManualState | Assets/Scripts/Camera/PlatformerCamera.cs:267-273 | the target is the manual target, and the mode becomes Hybrid exactly when the hybrid delay has passed |
| CameraControl.PlatformerCamera.LateUpdateHybridState | Assets/Scripts/Camera/PlatformerCamera.cs:275-291 | the shared profile is unchanged after the frame; the target is the collision-corrected hybrid blend; the mode becomes Automatic exactly when the ratio is at least 1 |
| CameraControl.PlatformerCamera.LateUpdate | Assets/Scripts/Camera/PlatformerCamera.cs:293-315 | the new mode is the late transition of the old one; the profile is unchanged; the target fits the old mode; the sensor is updated from the current height profile |
| CameraControl.PlatformerCamera.ReplacePointOfInterest | Assets/Scripts/Camera/PlatformerCamera.cs:393-396 | the slot holds the given point of interest |
| CameraControl.PlatformerCamera.SetCameraAttributes | Assets/Scripts/Camera/PlatformerCamera.cs:413-416 | the profile slot holds the given profile |
| CameraControl.PlatformerCamera.ResetCameraAttributes | Assets/Scripts/Camera/PlatformerCamera.cs:418-421 | the profile slot holds the default profile |
| CameraControl.PlatformerCamera.SetHeightAttributes | Assets/Scripts/Camera/PlatformerCamera.cs:423-426 | the height profile slot holds the given profile |
| CameraControl.PlatformerCamera.ResetHeightAttributes | Assets/Scripts/Camera/PlatformerCamera.cs:428-431 | the height profile slot holds the default profile |
| Zones.ApproachStart | Assets/Scripts/Camera/CameraModifier.cs:47-48 | the approach starts from the current or the normal point, whichever is nearer the resting position; a tie goes to the normal point |
| Zones.CameraModifier.constructor | Assets/Scripts/Camera/CameraModifier.cs:14-37 | a zone keeps its camera, point of interest and profiles, with a change time of 5 and zero velocity |
| Zones.CameraModifier.OnTriggerEnter | Assets/Scripts/Camera/CameraModifier.cs:39-56 | with a point of interest: the resting position is saved, the point moves to its approach start, the snapshot records whether the slot was taken, and the slot is claimed; without one, the slot and the zone's bookkeeping are untouched; each profile is installed only if the zone has one |
| Zones.CameraModifier.OnTriggerExit | Assets/Scripts/Camera/CameraModifier.cs:67-80 | the slot is cleared only if it still holds this zone's point, the point goes back to its resting position and the velocity is zeroed; each profile the zone has is reset to the camera's default |
| Zones.ExitAfterLaterClaim | Assets/Scripts/Camera/CameraModifier.cs:39-80 | example: with zones entered a then b and a left first, b keeps the slot, b's snapshot says the slot was taken, and the camera profile is back at the default although b installed its own |
| Zones.ExitIgnoresPriority | Assets/Scripts/Camera/CameraModifier.cs:49-72 | example: a zone that entered while another held the slot still empties the slot on exit once it holds it again, an instance of OnTriggerExit's ownership rule |
| Locomotion.SerializedJumpWindows | Assets/Scripts/Gameplay/Controls/Movement.cs:61-65 | the serialised jump windows evaluate to zero |
| Locomotion.LowPass | Assets/Scripts/Gameplay/Controls/Movement.cs:100-103 | a stick axis stays in [-1, 1]; from in-range values it is the lag-weighted blend, between the previous and the raw value; lag 0 keeps the old value, lag 1 takes the raw one |
| Locomotion.Speed | Assets/Scripts/Gameplay/Controls/Movement.cs:105-108 | the speed factor is 0 or in [0.1, 1]; 0 below the 0.1 dead zone, the squared deflection in range, 1 at full deflection |
| Locomotion.GroundImpulse | Assets/Scripts/Gameplay/Controls/Movement.cs:131 | a tap gives the curve's start value times the ground force, a hold past the window its end value |
| Locomotion.GroundImpulseMonotone | Assets/Scripts/Gameplay/Controls/Movement.cs:131 | with a non-decreasing force curve, a longer hold never gives a weaker ground jump |
| Locomotion.ExpandBoost | Assets/Scripts/Gameplay/Controls/Movement.cs:149 | with an extended-jump curve valued in [0, 1], a frame's extra lift lies between 0 and that frame's gravity |
| Locomotion.JumpStep | Assets/Scripts/Gameplay/Controls/Movement.cs:124-159 | grounded: both flags clear and a jump is taken exactly on release or an over-long hold, with its impulse; airborne: the ground flag is untouched, a double jump needs a fresh press and can happen once per flight, a hold only adds the extended lift; gravity·dt is paid in every case |
| Locomotion.BallisticFlight | Assets/Scripts/Gameplay/Controls/Movement.cs:135-159 | over any airborne run after the double jump, or with the button untouched, the speed loses exactly gravity·elapsed time and neither flag changes |
| Locomotion.Steering | Assets/Scripts/Gameplay/Controls/Movement.cs:113-117 | a zero speed factor gives no steering; when the oriented stick is a unit vector the steering has length speed × speed multiplier |
| Locomotion.HorizontalMotion | Assets/Scripts/Gameplay/Controls/Movement.cs:137-157 | the ground steers fully; the default full air control steers fully before the double jump; air-control shares in [0, 1] never steer harder than the ground |
| Locomotion.Momentum | Assets/Scripts/Gameplay/Controls/Movement.cs:128-154 | the ground records the steering as momentum; in the air, with decay factors in [0, 1], the momentum never grows |
| Locomotion.DoubleJumpDecaysFaster | Assets/Scripts/Gameplay/Controls/Movement.cs:152-154 | with the decreaser in [0, 1], a frame after the double jump keeps no more momentum than a frame before it |
| Locomotion.GlideDecay | Assets/Scripts/Gameplay/Controls/Movement.cs:138 | after n airborne frames before the double jump, the carried momentum is the starting momentum times aerodynamic to the n, whatever the steering |
| Locomotion.Displacement | Assets/Scripts/Gameplay/Controls/Movement.cs:160-163 | a zero nullifier gives no displacement |
| Locomotion.DisplacementScales | Assets/Scripts/Gameplay/Controls/Movement.cs:163 | the frame's displacement is the displacement for nullifier 1 scaled by the nullifier's value |
| Locomotion.DisplacementComposition | Assets/Scripts/Gameplay/Controls/Movement.cs:160-163 | on the ground the carried momentum plays no part and the vertical displacement is the vertical speed over the frame; in the air the momentum times the air inertia is added on top |
| Locomotion.Grounded | Assets/Scripts/Gameplay/Controls/Movement.cs:74-80 | never grounded right after a jump; grounded while the controller reports ground; otherwise grounded exactly until the delay has passed since leaving the ground |
| Locomotion.Movement.constructor | Assets/Scripts/Gameplay/Controls/Movement.cs:19-92 | the serialised defaults (lag 0.2, speed 12, gravity 9.8, inertia 1, aerodynamic 0.99, decreaser 0.95, air controls 1, forces 5 and 3, delay 0.1), the nullifier at 1, both flags clear, zero axes, speed, vertical speed, tap time, leave-ground time and carried momentum, and the grounded flag as the controller reports it |
| Locomotion.Movement.ControllerInput | Assets/Scripts/Gameplay/Controls/Movement.cs:95-109 | both axes take one low-pass step and stay in [-1, 1], and the speed factor is that of the new axes |
| Locomotion.Movement.GroundedJump | Assets/Scripts/Gameplay/Controls/Movement.cs:124-134 | the jump state is the grounded kick of the old one |
| Locomotion.Movement.AirJump | Assets/Scripts/Gameplay/Controls/Movement.cs:139-151 | before the double jump is spent, the jump state is the airborne kick of the old one |
| Locomotion.Movement.Carry | Assets/Scripts/Gameplay/Controls/Movement.cs:124-157 | the horizontal motion and the carried momentum are those of the grounded or airborne branch |
| Locomotion.Movement.Jumping | Assets/Scripts/Gameplay/Controls/Movement.cs:124-159 | the jump state after the frame is JumpStep of the old one |
| Locomotion.Movement.Thrust | Assets/Scripts/Gameplay/Controls/Movement.cs:159-166 | the displacement uses the grounded test after the jump logic and the old nullifier, which is then reset to 1 |
| Locomotion.Movement.Move | Assets/Scripts/Gameplay/Controls/Movement.cs:111-167 | the jump state is JumpStep and the momentum is Momentum for the frame's grounded test; first person is allowed exactly when grounded with the stick at rest; the displacement is scaled by the old nullifier, which ends at 1 |
| Locomotion.Movement.Freeze | Assets/Scripts/Gameplay/Controls/Movement.cs:169-174 | both physics flags are negated |
| Locomotion.Movement.FreezeTwice | Assets/Scripts/Gameplay/Controls/Movement.cs:169-174 | two freezes restore both flags |
| Locomotion.Movement.Update | Assets/Scripts/Gameplay/Controls/Movement.cs:185-192 | a press records the tap time, then the input step, then Move as above; the freeze flags flip exactly on a Fire2 press |
| Locomotion.Movement.LateUpdate | Assets/Scripts/Gameplay/Controls/Movement.cs:194-197 | the jump flag survives only while the controller is off the ground |
| Locomotion.Movement.FixedUpdate | Assets/Scripts/Gameplay/Controls/Movement.cs:199-204 | the leave-ground time is stamped only on a grounded-to-airborne edge, and the grounded flag is remembered |
| Locomotion.Movement.SetGravity | Assets/Scripts/Gameplay/Controls/Movement.cs:208 | gravity takes the given value |
| Locomotion.Movement.SetDidJump | Assets/Scripts/Gameplay/Controls/Movement.cs:209 | the jump flag takes the given value |
| Locomotion.Movement.SetDidDoubleJump | Assets/Scripts/Gameplay/Controls/Movement.cs:210 | the double-jump flag takes the given value |
| Locomotion.Movement.SetMouvDirNullifier | Assets/Scripts/Gameplay/Controls/Movement.cs:211 | the nullifier takes the given value |
| Locomotion.Movement.SetMoveDirectionBeforejump | Assets/Scripts/Gameplay/Controls/Movement.cs:212 | the carried momentum takes the given value |
| Locomotion.Movement.SetVSpeed | Assets/Scripts/Gameplay/Controls/Movement.cs:213 | the vertical speed takes the given value |

## Left out

- **Transform motion.** The camera's own transform motion is not modelled:
  - smoothFollow, manualRotation, hybridRotation, firstPerson and cameraCustomCollision;
  - RotateAround, LookAt, Slerp and the placement in Start.

  These are quaternion and trigonometric operations with no faithful counterpart over reals. The camera's position and facing come in with each frame.
- **`Move`'s orientation.** `Move`'s `FromToRotation` and the normalisation of the move direction are the per-frame `orient` function. The character's `LookAt` turn is not modelled.
- **Engine services as values.** These are function values or inputs, and only what the code states about them is used:
  - SmoothDamp, AnimationCurve.Evaluate and vector normalisation;
  - Vector3.Distance, the linecast and the raycasts.

  Each probe is its hit distance plus the two normalising distances.
- **Coroutines.** `goToFirstPerson` is reduced to the end effect of one completed entry (`CompleteFirstPersonEntry`). Its 0.2 s hold loop, its interpolation loop and its restart on every qualifying frame are not modelled. `changeSmoothDampTargetTime` and `setSmoothDampTargetTime` (cooperative scheduling, stop by name) are not modelled.
- **Cosmetic code.** `OnDrawGizmos`, `MotionIndicator`, `OnTriggerStay` and the `FreezeEvent` delegate call have no effect on the modelled state.
- `getPointOfInterest` is a plain read of the camera's slot, which the zones read directly.
- **Floats.** Float rounding, `float.Epsilon` and NaN are not modelled. `pitchSlider >= 1 - float.Epsilon` is `pitchSlider >= 1`, which is what the single-precision constant rounds to.
- HeightSensing.HeightModifier.Calculate: `raycastHit` is kept as the hit distance rather than the RaycastHit struct. A miss of both probes is `None`.
- Locomotion.Movement.Move: the horizontal branch work is done before the jump logic. The two touch disjoint fields, and the only flag the horizontal branch reads (the double jump) is read before the jump logic in the source as well.
- Locomotion.Movement.constructor: the jump windows and the two curves are parameters, because their serialised values are zero or editor-defined. The windows must be positive; this is the divisor guard the arithmetic needs.
- CameraControl.PlatformerCamera.SetCameraAttributes: the installed profile must have a positive auto-switch time, because the blend ratio divides by it. With a zero time the game's float division gives an infinite or NaN ratio, which reals do not represent. No other property of the profile is demanded.
- CameraControl.PlatformerCamera.constructor: the same positive auto-switch time is demanded of the default profile, for the same reason.
- Zones.CameraModifier.constructor: the same positive auto-switch time is demanded of a zone's camera profile, when it has one, for the same reason.
- CameraControl.FirstPersonReachable: the run is of the manual slider step alone. It assumes a dead-zone threshold below 0.9, which the first-person axis test needs anyway, and frames in which the slider step runs, that is, frames outside Automatic, which any view input ensures. Interleaving with the reset button is not covered.
