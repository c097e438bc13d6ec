/**
 * The third-person camera (PlatformerCamera): a four-mode state machine
 * advanced once per frame by Update (input resolution) and LateUpdate
 * (placement and timed transitions), with the slider arithmetic of the
 * manual mode, the time-based hybrid blend, and the slots that zones use
 * to push a point of interest and swap attribute profiles.
 *
 * The camera's own transform motion (smoothing, rotations, look-at) is not
 * modelled; what the camera observes of the world in a frame arrives as a
 * Scene.
 */
module CameraControl {
  import opened Unity
  import opened Attributes
  import opened HeightSensing

  datatype CameraState = Automatic | Manual | Hybrid | FirstPerson

  /** One frame of camera input: the reset button's press edge and the two view axes. */
  datatype ViewInput = ViewInput(reset: bool, horizontal: real, vertical: real)

  /**
   * What the camera reads of the world in one frame: its own transform,
   * the follow target's, vector normalisation, the solid-geometry linecast
   * from the smoothed look-at point to a candidate position, the terrain
   * probes, and Mathf.SmoothDamp.
   */
  datatype Scene = Scene(
    cameraPosition: Vec3,
    cameraForward: Vec3,
    followPosition: Vec3,
    followUp: Vec3,
    normalize: Vec3 -> Vec3,
    linecast: Vec3 -> Option<Obstacle>,
    probe: Probe,
    smoothDamp: Damper
  )

  /** The flattened direction from the camera to the follow target. */
  function LookDirection(s: Scene): Vec3 {
    s.normalize(Flatten(Sub(s.followPosition, s.cameraPosition)))
  }

  /** The camera's flattened facing, which the locomotion controller also reads. */
  function CameraDirection(s: Scene): Vec3 {
    s.normalize(Flatten(s.cameraForward))
  }

  /** The default place to look when no point of interest is set: one step ahead of the camera. */
  function NormalPointOfInterest(s: Scene): (r: Vec3)
    ensures Sub(r, s.cameraPosition) == LookDirection(s)
  {
    Add(s.cameraPosition, LookDirection(s))
  }

  /** The look direction is taken in the horizontal plane: the heights of the camera and the target play no part. */
  lemma LookDirectionIsHorizontal(s: Scene, cameraHeight: real, followHeight: real)
    ensures LookDirection(s.(cameraPosition := s.cameraPosition.(y := cameraHeight),
                             followPosition := s.followPosition.(y := followHeight))) == LookDirection(s)
  {
  }

  /** The camera direction is the facing with its vertical component dropped: the camera's tilt plays no part. */
  lemma CameraDirectionIsHorizontal(s: Scene, forwardHeight: real)
    ensures CameraDirection(s.(cameraForward := s.cameraForward.(y := forwardHeight))) == CameraDirection(s)
  {
  }

  /** The view stick counts as input when either axis reaches the dead-zone threshold. */
  predicate UserInput(input: ViewInput, threshold: real) {
    Abs(input.horizontal) >= threshold || Abs(input.vertical) >= threshold
  }

  /** The condition under which Update starts the first-person entry sequence. */
  predicate FirstPersonRequested(allowed: bool, pitchSlider: real, yAxis: real) {
    allowed && pitchSlider >= 1.0 && yAxis > 0.9
  }

  /** Raising the dead-zone threshold can only suppress input, and a stick at rest counts as input only for a threshold of 0 or less. */
  lemma UserInputThreshold(input: ViewInput, lower: real, higher: real)
    ensures lower <= higher && UserInput(input, higher) ==> UserInput(input, lower)
    ensures UserInput(input.(horizontal := 0.0, vertical := 0.0), higher) <==> higher <= 0.0
  {
  }

  /** With the pitch slider in its range, a first-person request needs it pinned at exactly 1. */
  lemma FirstPersonNeedsPinnedPitch(allowed: bool, pitchSlider: real, yAxis: real)
    requires -1.0 <= pitchSlider <= 1.0
    ensures FirstPersonRequested(allowed, pitchSlider, yAxis) <==> allowed && pitchSlider == 1.0 && yAxis > 0.9
  {
  }

  /** Whether a frame's input puts the camera in manual mode, given the mode after the reset rule. */
  predicate TakesManual(afterReset: CameraState, startsFirstPerson: bool, userInput: bool, allowedToFirstPerson: bool) {
    && !startsFirstPerson
    && ((userInput && afterReset != FirstPerson) || (!allowedToFirstPerson && afterReset == FirstPerson))
  }

  /** The mode after Update's transition rules, in their order: reset first, then view input. */
  function ModeAfterInput(prev: CameraState, reset: bool, startsFirstPerson: bool, userInput: bool, allowedToFirstPerson: bool): (r: CameraState)
    // reset forces Automatic; only fresh view input can override it in the same frame
    ensures reset ==> r == (if !startsFirstPerson && userInput then Manual else Automatic)
    // view input outside first person forces Manual
    ensures !startsFirstPerson && userInput && prev != FirstPerson ==> r == Manual
    // first person is left for Manual as soon as it stops being permitted
    ensures !startsFirstPerson && !reset && prev == FirstPerson && !allowedToFirstPerson ==> r == Manual
    // Update never enters Hybrid or FirstPerson itself
    ensures r != prev ==> r == Manual || (reset && r == Automatic)
    ensures !reset && !userInput && (prev != FirstPerson || allowedToFirstPerson) ==> r == prev
    // a first-person request in the same frame blocks the manual rule
    ensures startsFirstPerson ==> r == (if reset then Automatic else prev)
    // view input in first person keeps it while first person is allowed
    ensures !reset && prev == FirstPerson && allowedToFirstPerson ==> r == FirstPerson
  {
    var afterReset := if reset then Automatic else prev;
    if TakesManual(afterReset, startsFirstPerson, userInput, allowedToFirstPerson) then Manual else afterReset
  }

  /** One frame of the look-stick low-pass: the average of the previous value and the raw axis. */
  function SmoothedAxis(previous: real, raw: real): (r: real)
    ensures Min(previous, raw) <= r <= Max(previous, raw)
  {
    previous / 2.0 + raw / 2.0
  }

  /**
   * The yaw slider after one manual frame: a stick push outside the dead
   * zone turns it by x|x|/90 of a full turn, wrapped with C#'s remainder,
   * and a negative result is moved back into [0, 1).
   */
  function YawStep(yaw: real, x: real, threshold: real): (r: real)
    ensures Abs(x) > threshold ==> 0.0 <= r < 1.0
    ensures -1.0 <= yaw < 1.0 ==> 0.0 <= r < 1.0
    ensures Abs(x) <= threshold && 0.0 <= yaw ==> r == yaw
  {
    var turned := if Abs(x) > threshold then FloatRem(yaw + x * Abs(x) / 90.0, 1.0) else yaw;
    if turned < 0.0 then turned + 1.0 else turned
  }

  /** Outside the dead zone the new yaw is the turned yaw up to a whole number of turns. */
  lemma YawStepTurns(yaw: real, x: real, threshold: real)
    requires Abs(x) > threshold
    ensures IsWhole(YawStep(yaw, x, threshold) - (yaw + x * Abs(x) / 90.0))
  {
    var target := yaw + x * Abs(x) / 90.0;
    var turned := FloatRem(target, 1.0);
    FloatRemOneWhole(target);
    assert IsWhole(target - turned);
    WholeNegate(target - turned);
    if turned < 0.0 {
      WholeShift(turned - target);
    }
  }

  lemma WholeNegate(w: real)
    requires IsWhole(w)
    ensures IsWhole(-w)
  {
    var n := w.Floor;
    assert -w == (-n) as real;
    assert ((-n) as real).Floor == -n;
  }

  lemma WholeShift(w: real)
    requires IsWhole(w)
    ensures IsWhole(w + 1.0)
  {
    var n := w.Floor;
    assert w + 1.0 == (n + 1) as real;
    assert ((n + 1) as real).Floor == n + 1;
  }

  /**
   * The pitch slider after one manual frame: a stick push outside the dead
   * zone moves it by y|y|/20, clamped to [-1, 1].
   */
  function PitchStep(pitch: real, y: real, threshold: real): (r: real)
    ensures Abs(y) > threshold ==> -1.0 <= r <= 1.0
    ensures Abs(y) > threshold && -1.0 <= pitch + y * Abs(y) / 20.0 <= 1.0 ==> r == pitch + y * Abs(y) / 20.0
    ensures Abs(y) <= threshold ==> r == pitch
    ensures -1.0 <= pitch <= 1.0 ==> -1.0 <= r <= 1.0
    ensures y >= 0.0 && pitch <= 1.0 ==> r >= pitch
    ensures y <= 0.0 && pitch >= -1.0 ==> r <= pitch
    // a step past either end pins the slider there
    ensures Abs(y) > threshold && pitch + y * Abs(y) / 20.0 > 1.0 ==> r == 1.0
    ensures Abs(y) > threshold && pitch + y * Abs(y) / 20.0 < -1.0 ==> r == -1.0
  {
    if Abs(y) > threshold then Clamp(pitch + y * Abs(y) / 20.0, -1.0, 1.0) else pitch
  }

  /**
   * The pitch slider and the smoothed vertical axis after n manual frames
   * with the raw stick held fully up: each frame smooths the axis toward 1,
   * then steps the slider by the smoothed value.
   */
  function HeldRun(pitch: real, yAxis: real, n: nat, threshold: real): (real, real)
    decreases n
  {
    if n == 0 then (pitch, yAxis)
    else
      var y := SmoothedAxis(yAxis, 1.0);
      HeldRun(PitchStep(pitch, y, threshold), y, n - 1, threshold)
  }

  /** A run of a + b frames is a run of a frames followed by a run of b frames. */
  lemma {:induction false} HeldRunSplit(pitch: real, yAxis: real, a: nat, b: nat, threshold: real)
    ensures HeldRun(pitch, yAxis, a + b, threshold)
         == HeldRun(HeldRun(pitch, yAxis, a, threshold).0, HeldRun(pitch, yAxis, a, threshold).1, b, threshold)
    decreases a
  {
    if a > 0 {
      var y := SmoothedAxis(yAxis, 1.0);
      HeldRunSplit(PitchStep(pitch, y, threshold), y, a - 1, b, threshold);
      assert a + b - 1 == (a - 1) + b;
    }
  }

  /** One held frame from in-range values: the slider stays in range and the axis closes half its gap to 1. */
  lemma HeldFrame(pitch: real, yAxis: real, threshold: real)
    requires -1.0 <= pitch <= 1.0 && -1.0 <= yAxis <= 1.0
    ensures -1.0 <= HeldRun(pitch, yAxis, 1, threshold).0 <= 1.0
    ensures HeldRun(pitch, yAxis, 1, threshold).1 == yAxis / 2.0 + 1.0 / 2.0
  {
    var y := SmoothedAxis(yAxis, 1.0);
    assert HeldRun(pitch, yAxis, 1, threshold) == HeldRun(PitchStep(pitch, y, threshold), y, 0, threshold);
  }

  /** Five held frames from any in-range state lift the smoothed axis above 0.9, the first-person threshold. */
  lemma HeldAxisSettles(pitch: real, yAxis: real, threshold: real)
    requires -1.0 <= pitch <= 1.0 && -1.0 <= yAxis <= 1.0
    ensures -1.0 <= HeldRun(pitch, yAxis, 5, threshold).0 <= 1.0
    ensures 0.9 < HeldRun(pitch, yAxis, 5, threshold).1 <= 1.0
  {
    var p, y := pitch, yAxis;
    var k: nat := 0;
    while k < 5
      invariant k <= 5
      invariant (p, y) == HeldRun(pitch, yAxis, k, threshold)
      invariant -1.0 <= p <= 1.0 && -1.0 <= y <= 1.0
      invariant y >= 1.0 - 2.0 / Power2(k)
    {
      HeldFrame(p, y, threshold);
      HeldRunSplit(pitch, yAxis, k, 1, threshold);
      p, y := HeldRun(p, y, 1, threshold).0, HeldRun(p, y, 1, threshold).1;
      k := k + 1;
    }
  }

  function Power2(k: nat): (r: real)
    ensures r >= 1.0
    decreases k
  {
    if k == 0 then 1.0 else 2.0 * Power2(k - 1)
  }

  /**
   * Once the smoothed axis is above 0.9, every held frame raises the slider
   * by at least 1/25 until it is pinned at 1, and the axis stays above 0.9.
   */
  lemma {:induction false} HeldPitchClimbs(pitch: real, yAxis: real, n: nat, threshold: real)
    requires -1.0 <= pitch <= 1.0 && 0.9 < yAxis <= 1.0 && threshold < 0.9
    ensures -1.0 <= HeldRun(pitch, yAxis, n, threshold).0 <= 1.0
    ensures HeldRun(pitch, yAxis, n, threshold).0 >= Min(1.0, pitch + n as real / 25.0)
    ensures 0.9 < HeldRun(pitch, yAxis, n, threshold).1 <= 1.0
    decreases n
  {
    if n > 0 {
      var y := SmoothedAxis(yAxis, 1.0);
      assert 0.95 < y <= 1.0;
      assert y * Abs(y) >= 0.9 * 0.9 by {
        MulMonotone(0.9, y, 0.9);
        MulMonotone(0.9, y, y);
      }
      var next := PitchStep(pitch, y, threshold);
      assert next >= Min(1.0, pitch + 1.0 / 25.0);
      HeldPitchClimbs(next, y, n - 1, threshold);
      assert HeldRun(pitch, yAxis, n, threshold) == HeldRun(next, y, n - 1, threshold);
    }
  }

  /**
   * Holding the raw stick fully up for 55 manual frames, from any in-range
   * slider and axis, leaves the camera in a state whose next Update requests
   * first person when it is allowed.
   */
  lemma FirstPersonReachable(pitch: real, yAxis: real, threshold: real)
    requires -1.0 <= pitch <= 1.0 && -1.0 <= yAxis <= 1.0 && threshold < 0.9
    ensures FirstPersonRequested(true, HeldRun(pitch, yAxis, 55, threshold).0, HeldRun(pitch, yAxis, 55, threshold).1)
  {
    HeldAxisSettles(pitch, yAxis, threshold);
    var settled := HeldRun(pitch, yAxis, 5, threshold);
    HeldRunSplit(pitch, yAxis, 5, 50, threshold);
    HeldPitchClimbs(settled.0, settled.1, 50, threshold);
  }

  /**
   * The manual camera distance for a pitch slider value: two interpolations
   * that meet the base distance at pitch -1 and at pitch 0.  Below zero the
   * endpoints run from the base distance at -1 toward the manual maximum,
   * so the value jumps back from near the maximum to the base distance at
   * 0 (see ManualDistanceBelowZero and ManualDistanceJumpsAtZero).
   */
  function ManualDistance(a: CameraAttributes, pitch: real): (r: real)
    ensures pitch == -1.0 ==> r == a.distance
    ensures pitch == 0.0 ==> r == a.distance
    ensures pitch == 1.0 ==> r == a.manualMinDistance
    ensures 0.0 <= pitch ==> Min(a.manualMinDistance, a.distance) <= r <= Max(a.manualMinDistance, a.distance)
  {
    if pitch < 0.0 then Lerp(a.distance, a.manualMaxDistance, pitch + 1.0)
    else Lerp(a.distance, a.manualMinDistance, pitch)
  }

  /** Below zero the manual distance approaches the manual maximum linearly as the pitch rises to zero. */
  lemma ManualDistanceBelowZero(a: CameraAttributes, pitch: real)
    requires -1.0 <= pitch < 0.0
    ensures ManualDistance(a, pitch) - a.distance == (a.manualMaxDistance - a.distance) * (pitch + 1.0)
    ensures Abs(ManualDistance(a, pitch) - a.manualMaxDistance) == Abs(a.manualMaxDistance - a.distance) * -pitch
  {
    var base, far := a.distance, a.manualMaxDistance;
    var r := ManualDistance(a, pitch);
    assert r == Lerp(base, far, pitch + 1.0);
    LerpOffsets(base, far, pitch + 1.0, -pitch);
    LerpDistances(base, far, pitch + 1.0, -pitch);
  }

  /**
   * The manual distance is not continuous at pitch 0: however close below
   * zero one looks, there is a pitch whose distance differs from the
   * distance at 0 by at least half the gap between the base distance and
   * the manual maximum.
   */
  lemma ManualDistanceJumpsAtZero(a: CameraAttributes, eps: real) returns (pitch: real)
    requires eps > 0.0
    ensures -eps < pitch < 0.0
    ensures Abs(ManualDistance(a, pitch) - ManualDistance(a, 0.0)) >= Abs(a.manualMaxDistance - a.distance) / 2.0
  {
    pitch := -Min(eps, 1.0) / 2.0;
    var gap := a.manualMaxDistance - a.distance;
    var k := pitch + 1.0;
    assert 0.5 <= k < 1.0;
    ManualDistanceBelowZero(a, pitch);
    var diff := ManualDistance(a, pitch) - ManualDistance(a, 0.0);
    assert diff == gap * k;
    ScaleAbs(gap, k);
    var g, d := Abs(gap), Abs(diff);
    assert d == k * g;
    AtLeastHalf(d, k, g);
  }

  lemma AtLeastHalf(d: real, k: real, g: real)
    requires g >= 0.0 && k >= 0.5 && d == k * g
    ensures d >= g / 2.0
  {
    MulMonotone(0.5, k, g);
  }

  /**
   * The manual camera height for a pitch slider value: the manual maximum
   * at pitch -1, the base height at 0 and the manual minimum at 1, linear
   * on each side (see ManualDistanceUpLinear).
   */
  function ManualDistanceUp(a: CameraAttributes, pitch: real): (r: real)
    ensures pitch == -1.0 ==> r == a.manualMaxDistanceUp
    ensures pitch == 0.0 ==> r == a.distanceUp
    ensures pitch == 1.0 ==> r == a.manualMinDistanceUp
    ensures -1.0 <= pitch <= 0.0 ==> Min(a.manualMaxDistanceUp, a.distanceUp) <= r <= Max(a.manualMaxDistanceUp, a.distanceUp)
    ensures 0.0 <= pitch ==> Min(a.manualMinDistanceUp, a.distanceUp) <= r <= Max(a.manualMinDistanceUp, a.distanceUp)
  {
    if pitch < 0.0 then Lerp(a.manualMaxDistanceUp, a.distanceUp, pitch + 1.0)
    else Lerp(a.distanceUp, a.manualMinDistanceUp, pitch)
  }

  /** On each side of zero the manual height moves away from the base height in proportion to the pitch. */
  lemma ManualDistanceUpLinear(a: CameraAttributes, pitch: real)
    ensures -1.0 <= pitch < 0.0 ==> Abs(ManualDistanceUp(a, pitch) - a.distanceUp) == Abs(a.manualMaxDistanceUp - a.distanceUp) * -pitch
    ensures 0.0 <= pitch <= 1.0 ==> Abs(ManualDistanceUp(a, pitch) - a.distanceUp) == Abs(a.manualMinDistanceUp - a.distanceUp) * pitch
  {
    var r := ManualDistanceUp(a, pitch);
    if -1.0 <= pitch < 0.0 {
      var high, base := a.manualMaxDistanceUp, a.distanceUp;
      assert r == Lerp(high, base, pitch + 1.0);
      LerpDistances(high, base, pitch + 1.0, -pitch);
      assert Abs(base - high) == Abs(high - base);
    } else if 0.0 <= pitch <= 1.0 {
      var base, low := a.distanceUp, a.manualMinDistanceUp;
      assert r == Lerp(base, low, pitch);
      LerpDistances(base, low, pitch, 1.0 - pitch);
    }
  }

  /** The manual height is continuous at pitch 0: for every tolerance there is a neighbourhood that keeps within it. */
  lemma ManualDistanceUpContinuousAtZero(a: CameraAttributes, eps: real) returns (delta: real)
    requires eps > 0.0
    ensures 0.0 < delta <= 1.0
    ensures forall pitch :: -delta < pitch < delta ==> Abs(ManualDistanceUp(a, pitch) - a.distanceUp) < eps
  {
    var slope := Abs(a.manualMaxDistanceUp - a.distanceUp) + Abs(a.manualMinDistanceUp - a.distanceUp) + 1.0;
    delta := Min(1.0, eps / slope);
    QuotientBound(slope, eps, delta);
    forall pitch | -delta < pitch < delta
      ensures Abs(ManualDistanceUp(a, pitch) - a.distanceUp) < eps
    {
      NearBaseHeight(a, pitch, slope, delta, eps);
    }
  }

  lemma NearBaseHeight(a: CameraAttributes, pitch: real, slope: real, delta: real, eps: real)
    requires slope == Abs(a.manualMaxDistanceUp - a.distanceUp) + Abs(a.manualMinDistanceUp - a.distanceUp) + 1.0
    requires 0.0 < delta <= 1.0 && slope * delta <= eps && -delta < pitch < delta
    ensures Abs(ManualDistanceUp(a, pitch) - a.distanceUp) < eps
  {
    ManualDistanceUpLinear(a, pitch);
    var side := if pitch < 0.0 then Abs(a.manualMaxDistanceUp - a.distanceUp) else Abs(a.manualMinDistanceUp - a.distanceUp);
    var size := Abs(pitch);
    var v := Abs(ManualDistanceUp(a, pitch) - a.distanceUp);
    assert v == side * size;
    WithinTolerance(v, side, size, slope, delta, eps);
  }

  lemma QuotientBound(m: real, eps: real, delta: real)
    requires m > 0.0 && delta <= eps / m
    ensures m * delta <= eps
  {
    MulMonotone(delta, eps / m, m);
    assert eps / m * m == eps;
  }

  lemma WithinTolerance(v: real, side: real, size: real, slope: real, delta: real, eps: real)
    requires v == side * size && 0.0 <= side <= slope && 0.0 <= size < delta
    requires slope > 0.0 && slope * delta <= eps
    ensures v < eps
  {
    MulMonotone(side, slope, size);
    StrictScale(size, delta, slope);
  }

  lemma StrictScale(x: real, y: real, m: real)
    requires x < y && m > 0.0
    ensures m * x < m * y
  {
    assert m * (y - x) > 0.0;
  }

  /**
   * The hybrid blend ratio: the time since the hybrid delay ran out, as a
   * fraction of the auto-switch time, clamped to [0, 1].
   */
  function ModeRatio(now: real, lastTimeManual: real, a: CameraAttributes): (r: real)
    requires a.autoSwitchTime > 0.0
    ensures 0.0 <= r <= 1.0
    ensures r == 0.0 <==> now <= lastTimeManual + a.hybridDelayTime
    ensures r == 1.0 <==> now >= lastTimeManual + a.hybridDelayTime + a.autoSwitchTime
  {
    var elapsed := now - (lastTimeManual + a.hybridDelayTime);
    var q := elapsed / a.autoSwitchTime;
    NormalisedBounds(q, a.autoSwitchTime, elapsed);
    Clamp01(q)
  }

  /** While no manual input arrives, the hybrid blend only moves toward automatic as time passes. */
  lemma ModeRatioMonotone(a: CameraAttributes, lastTimeManual: real, earlier: real, later: real)
    requires a.autoSwitchTime > 0.0 && earlier <= later
    ensures ModeRatio(earlier, lastTimeManual, a) <= ModeRatio(later, lastTimeManual, a)
  {
    var m := a.autoSwitchTime;
    var e1, e2 := earlier - (lastTimeManual + a.hybridDelayTime), later - (lastTimeManual + a.hybridDelayTime);
    DivMonotone(e1, e2, m);
  }

  /** The mode after LateUpdate: Manual decays to Hybrid after the delay, Hybrid to Automatic once blended. */
  function ModeAfterLate(state: CameraState, lastTimeManual: real, a: CameraAttributes, now: real, modeRatio: real): (r: CameraState)
    ensures state == Manual ==> (r == Hybrid <==> lastTimeManual + a.hybridDelayTime < now)
    ensures state == Manual ==> r == Manual || r == Hybrid
    ensures state == Hybrid ==> (r == Automatic <==> modeRatio >= 1.0)
    ensures state == Hybrid ==> r == Automatic || r == Hybrid
    ensures state == Automatic || state == FirstPerson ==> r == state
  {
    match state
    case Manual => if lastTimeManual + a.hybridDelayTime < now then Hybrid else Manual
    case Hybrid => if modeRatio >= 1.0 then Automatic else Hybrid
    case _ => state
  }

  /** What the terrain sensor reported on the previous frame. */
  datatype Sensed = Sensed(bumpHeight: real, bumpDistance: real, ratio: real)

  /**
   * The height above and the distance behind the follow target that the
   * automatic camera aims for: the profile's values blended toward the
   * sensed bump values by the sensor ratio, clamped to [0, 1] by the
   * interpolation.
   */
  function AutomaticOffsets(a: CameraAttributes, s: Sensed): (r: (real, real))
    ensures Min(a.distanceUp, s.bumpHeight) <= r.0 <= Max(a.distanceUp, s.bumpHeight)
    ensures Min(a.distance, s.bumpDistance) <= r.1 <= Max(a.distance, s.bumpDistance)
    ensures s.ratio <= 0.0 ==> r == (a.distanceUp, a.distance)
    ensures s.ratio >= 1.0 ==> r == (s.bumpHeight, s.bumpDistance)
  {
    (Lerp(a.distanceUp, s.bumpHeight, s.ratio), Lerp(a.distance, s.bumpDistance, s.ratio))
  }

  /** The automatic target: above the follow target along its up axis, behind it along the look direction. */
  function AutomaticTarget(a: CameraAttributes, s: Sensed, followPosition: Vec3, followUp: Vec3, look: Vec3): (r: Vec3)
    // on flat ground the profile's own distances place the camera
    ensures s.ratio <= 0.0 ==> r == Sub(Add(followPosition, Scale(followUp, a.distanceUp)), Scale(look, a.distance))
  {
    var offsets := AutomaticOffsets(a, s);
    Sub(Add(followPosition, Scale(followUp, offsets.0)), Scale(look, offsets.1))
  }

  /** The manual target: the recorded manual frame scaled by the pitch-derived distances. */
  function ManualTarget(followPosition: Vec3, manualUp: Vec3, manualDistanceUp: real, manualForward: Vec3, manualDistance: real): (r: Vec3)
    ensures manualDistanceUp == 0.0 && manualDistance == 0.0 ==> r == followPosition
  {
    Sub(Add(followPosition, Scale(manualUp, manualDistanceUp)), Scale(manualForward, manualDistance))
  }

  /**
   * In an orthonormal manual frame the target's squared distance from the
   * follow target is the sum of the squared manual height and distance.
   */
  lemma ManualTargetDistance(followPosition: Vec3, manualUp: Vec3, manualDistanceUp: real, manualForward: Vec3, manualDistance: real)
    requires SqrMagnitude(manualUp) == 1.0 && SqrMagnitude(manualForward) == 1.0 && Dot(manualUp, manualForward) == 0.0
    ensures SqrMagnitude(Sub(ManualTarget(followPosition, manualUp, manualDistanceUp, manualForward, manualDistance), followPosition))
         == manualDistanceUp * manualDistanceUp + manualDistance * manualDistance
  {
    var up, back := Scale(manualUp, manualDistanceUp), Scale(manualForward, manualDistance);
    assert Sub(ManualTarget(followPosition, manualUp, manualDistanceUp, manualForward, manualDistance), followPosition) == Sub(up, back);
    SqrMagnitudeOfDifference(up, back);
    ScaleSqrMagnitude(manualUp, manualDistanceUp);
    ScaleSqrMagnitude(manualForward, manualDistance);
    DotOfScaled(manualUp, manualForward, manualDistanceUp, manualDistance);
  }

  /**
   * The hybrid target computed without touching the profile: the automatic
   * target is taken with the profile distances pulled toward the manual
   * ones, and the result is blended from the manual target by the curve
   * value c.
   */
  function HybridTarget(a: CameraAttributes, c: real, manualDistance: real, manualDistanceUp: real,
                        manualTarget: Vec3, s: Sensed, followPosition: Vec3, followUp: Vec3, look: Vec3): (r: Vec3)
    ensures c <= 0.0 ==> r == manualTarget
    ensures c >= 1.0 ==> r == AutomaticTarget(a, s, followPosition, followUp, look)
  {
    var blended := a.(distance := Lerp(manualDistance, a.distance, c), distanceUp := Lerp(manualDistanceUp, a.distanceUp, c));
    assert c >= 1.0 ==> blended == a;
    LerpVec(manualTarget, AutomaticTarget(blended, s, followPosition, followUp, look), c)
  }

  /** Collision avoidance: a blocked target is moved to the hit point, pushed out along the surface normal. */
  function Collide(target: Vec3, hit: Option<Obstacle>, normalize: Vec3 -> Vec3, multiplier: real): (r: Vec3)
    ensures hit.None? ==> r == target
    ensures hit.Some? ==> Sub(r, hit.value.point) == Scale(normalize(hit.value.normal), multiplier)
  {
    match hit
    case None => target
    case Some(o) => Add(o.point, Scale(normalize(o.normal), multiplier))
  }

  class PlatformerCamera {
    var modeRatio: real
    var lastTimeManual: real
    var pointOfInterest: Transform?
    var manualDistanceUp: real
    var manualDistance: real
    var pitchSlider: real
    var yawSlider: real
    const cameraCollisionDistanceMultiplier: real := 0.35
    const minJoystickThreshold: real := 0.1
    var manualForward: Vec3
    var manualUp: Vec3
    const defaultAttrs: CameraAttributes
    var attrs: CameraAttributes
    const defaultHeightAttributes: HeightAttributes
    var currentHeightAttributes: HeightAttributes
    const heightModifier: HeightModifier
    var state: CameraState
    var allowedToFirstPerson: bool
    var isFirstPersonned: bool
    var targetPosition: Vec3
    var lookDirection: Vec3
    var xAxis: real
    var yAxis: real

    /** The ranges the sliders keep and the profiles the arithmetic needs. */
    ghost predicate Valid()
      reads this
    {
      && WellFormed(attrs)
      && WellFormed(defaultAttrs)
      && -1.0 <= pitchSlider <= 1.0
      && 0.0 <= yawSlider < 1.0
      && 0.0 <= modeRatio <= 1.0
    }

    /** The field initialisers and Start: automatic mode with the default profiles. */
    constructor (defaultAttrs: CameraAttributes, defaultHeightAttributes: HeightAttributes)
      requires WellFormed(defaultAttrs)
      ensures Valid() && fresh(heightModifier)
      ensures state == Automatic && pointOfInterest == null
      ensures attrs == defaultAttrs && currentHeightAttributes == defaultHeightAttributes
      ensures modeRatio == 1.0 && lastTimeManual == 0.0
      ensures pitchSlider == 0.0 && yawSlider == 0.0 && xAxis == 0.0 && yAxis == 0.0
      ensures allowedToFirstPerson && !isFirstPersonned
      ensures heightModifier.BumpHeight == 0.0 && heightModifier.BumpDistance == 0.0
      ensures heightModifier.bumpHeightSmooth == 0.0 && heightModifier.bumpDistanceSmooth == 0.0
      ensures heightModifier.smoothDampTime == 0.4 && heightModifier.cliffHillRatio == 0.0
      ensures heightModifier.raycastHit == None
    {
      this.defaultAttrs := defaultAttrs;
      this.defaultHeightAttributes := defaultHeightAttributes;
      heightModifier := new HeightModifier();
      modeRatio, lastTimeManual := 1.0, 0.0;
      pointOfInterest := null;
      manualDistanceUp, manualDistance := 0.0, 0.0;
      pitchSlider, yawSlider := 0.0, 0.0;
      manualForward, manualUp := Zero, Zero;
      allowedToFirstPerson, isFirstPersonned := true, false;
      targetPosition, lookDirection := Zero, Zero;
      xAxis, yAxis := 0.0, 0.0;
      state := Automatic;
      currentHeightAttributes := defaultHeightAttributes;
      attrs := defaultAttrs;
    }

    /** The previous frame's sensor output, which the automatic placement consumes. */
    function LastSensed(): Sensed
      reads this, heightModifier
    {
      Sensed(heightModifier.BumpHeight, heightModifier.BumpDistance, heightModifier.cliffHillRatio)
    }

    /** Where the camera currently wants to look: the point of interest if one is set, else the normal point. */
    function CurrentPointOfInterest(s: Scene): (r: Vec3)
      reads this, pointOfInterest
      ensures pointOfInterest == null ==> r == NormalPointOfInterest(s)
      ensures pointOfInterest != null ==> r == pointOfInterest.position
    {
      if pointOfInterest != null then pointOfInterest.position else NormalPointOfInterest(s)
    }

    /** The automatic look direction: toward the point of interest when one is set, else the given one. */
    function AutomaticLook(s: Scene, look: Vec3): (r: Vec3)
      reads this, pointOfInterest
      ensures pointOfInterest == null ==> r == look
      ensures pointOfInterest != null ==> r == s.normalize(Sub(pointOfInterest.position, s.cameraPosition))
    {
      if pointOfInterest != null then s.normalize(Sub(pointOfInterest.position, s.cameraPosition)) else look
    }

    method SetState(newState: CameraState)
      modifies this`state
      ensures state == newState
    {
      state := newState;
    }

    /** The slider arithmetic of a manual, hybrid or first-person frame. */
    method ManualStateUpdate(input: ViewInput)
      requires Valid()
      modifies this`xAxis, this`yAxis, this`yawSlider, this`pitchSlider, this`manualDistance, this`manualDistanceUp
      ensures Valid()
      ensures xAxis == SmoothedAxis(old(xAxis), input.horizontal)
      ensures yAxis == SmoothedAxis(old(yAxis), input.vertical)
      ensures yawSlider == YawStep(old(yawSlider), xAxis, minJoystickThreshold)
      ensures pitchSlider == PitchStep(old(pitchSlider), yAxis, minJoystickThreshold)
      ensures manualDistance == ManualDistance(attrs, pitchSlider)
      ensures manualDistanceUp == ManualDistanceUp(attrs, pitchSlider)
    {
      var x := xAxis / 2.0 + input.horizontal / 2.0;
      var y := yAxis / 2.0 + input.vertical / 2.0;

      if Abs(x) > minJoystickThreshold {
        yawSlider := FloatRem(yawSlider + x * Abs(x) / 90.0, 1.0);
      }
      if Abs(y) > minJoystickThreshold {
        pitchSlider := Clamp(pitchSlider + y * Abs(y) / 20.0, -1.0, 1.0);
      }
      if yawSlider < 0.0 {
        yawSlider := yawSlider + 1.0;
      }
      assert yawSlider == YawStep(old(yawSlider), x, minJoystickThreshold);

      manualDistance := if pitchSlider < 0.0 then Lerp(attrs.distance, attrs.manualMaxDistance, pitchSlider + 1.0)
                        else Lerp(attrs.distance, attrs.manualMinDistance, pitchSlider);
      manualDistanceUp := if pitchSlider < 0.0 then Lerp(attrs.manualMaxDistanceUp, attrs.distanceUp, pitchSlider + 1.0)
                          else Lerp(attrs.distanceUp, attrs.manualMinDistanceUp, pitchSlider);
      xAxis, yAxis := x, y;
    }

    /**
     * The view input (or a disallowed first-person view) hands the camera to
     * the player: Manual from now on, with the reference frame recorded
     * only when the camera was not already under manual control.
     */
    method TakeManual(previous: CameraState, now: real, s: Scene)
      requires Valid()
      modifies this`state, this`isFirstPersonned, this`manualForward, this`manualUp, this`lastTimeManual
      ensures Valid()
      ensures state == Manual && !isFirstPersonned && lastTimeManual == now
      ensures if previous != Manual && previous != Hybrid
              then manualForward == CameraDirection(s) && manualUp == s.followUp
              else manualForward == old(manualForward) && manualUp == old(manualUp)
    {
      isFirstPersonned := false;
      SetState(Manual);
      if previous != Manual && previous != Hybrid {
        manualForward := CameraDirection(s);
        manualUp := s.followUp;
      }
      lastTimeManual := now;
    }

    /**
     * Update: resolve the frame's input into a mode, then run the slider
     * arithmetic (or zero it in automatic mode) and refresh the hybrid
     * blend ratio.  Returns whether the first-person entry sequence is
     * started this frame.
     */
    method Update(input: ViewInput, now: real, s: Scene) returns (startsFirstPerson: bool)
      requires Valid()
      modifies this`state, this`isFirstPersonned, this`manualForward, this`manualUp, this`lastTimeManual,
               this`xAxis, this`yAxis, this`yawSlider, this`pitchSlider, this`manualDistance, this`manualDistanceUp,
               this`modeRatio
      ensures Valid()
      ensures startsFirstPerson == FirstPersonRequested(allowedToFirstPerson, old(pitchSlider), old(yAxis))
      ensures state == ModeAfterInput(old(state), input.reset, startsFirstPerson, UserInput(input, minJoystickThreshold), allowedToFirstPerson)
      ensures var manual := TakesManual(if input.reset then Automatic else old(state), startsFirstPerson,
                                        UserInput(input, minJoystickThreshold), allowedToFirstPerson);
        && (manual ==> lastTimeManual == now && !isFirstPersonned)
        && (!manual ==> lastTimeManual == old(lastTimeManual) && isFirstPersonned == old(isFirstPersonned))
        // the manual reference frame is recorded only on entry from Automatic or FirstPerson
        && (if manual && old(state) != Manual && old(state) != Hybrid
            then manualForward == CameraDirection(s) && manualUp == s.followUp
            else manualForward == old(manualForward) && manualUp == old(manualUp))
      ensures state == Automatic ==>
        && yawSlider == 0.0 && xAxis == 0.0 && yAxis == 0.0
        && pitchSlider == old(pitchSlider)
        && manualDistance == old(manualDistance) && manualDistanceUp == old(manualDistanceUp)
      ensures state != Automatic ==>
        && xAxis == SmoothedAxis(old(xAxis), input.horizontal)
        && yAxis == SmoothedAxis(old(yAxis), input.vertical)
        && yawSlider == YawStep(old(yawSlider), xAxis, minJoystickThreshold)
        && pitchSlider == PitchStep(old(pitchSlider), yAxis, minJoystickThreshold)
        && manualDistance == ManualDistance(attrs, pitchSlider)
        && manualDistanceUp == ManualDistanceUp(attrs, pitchSlider)
      ensures modeRatio == ModeRatio(now, lastTimeManual, attrs)
    {
      startsFirstPerson := ResolveMode(input, now, s);
      Sliders(input);
      modeRatio := Clamp01((now - (lastTimeManual + attrs.hybridDelayTime)) / attrs.autoSwitchTime);
    }

    /** The first half of Update: the reset rule, then the view input. */
    method ResolveMode(input: ViewInput, now: real, s: Scene) returns (startsFirstPerson: bool)
      requires Valid()
      modifies this`state, this`isFirstPersonned, this`manualForward, this`manualUp, this`lastTimeManual
      ensures Valid()
      ensures startsFirstPerson == FirstPersonRequested(allowedToFirstPerson, pitchSlider, yAxis)
      ensures state == ModeAfterInput(old(state), input.reset, startsFirstPerson, UserInput(input, minJoystickThreshold), allowedToFirstPerson)
      ensures var manual := TakesManual(if input.reset then Automatic else old(state), startsFirstPerson,
                                        UserInput(input, minJoystickThreshold), allowedToFirstPerson);
        && (manual ==> lastTimeManual == now && !isFirstPersonned)
        && (!manual ==> lastTimeManual == old(lastTimeManual) && isFirstPersonned == old(isFirstPersonned))
        && (if manual && old(state) != Manual && old(state) != Hybrid
            then manualForward == CameraDirection(s) && manualUp == s.followUp
            else manualForward == old(manualForward) && manualUp == old(manualUp))
    {
      var oldState := state;

      if input.reset {
        SetState(Automatic);
      }

      startsFirstPerson := allowedToFirstPerson && pitchSlider >= 1.0 && yAxis > 0.9;
      if !startsFirstPerson && ((UserInput(input, minJoystickThreshold) && state != FirstPerson) || (!allowedToFirstPerson && state == FirstPerson)) {
        TakeManual(oldState, now, s);
      }
    }

    /** The second half of Update: the slider arithmetic outside automatic mode, a reset of yaw and axes inside it. */
    method Sliders(input: ViewInput)
      requires Valid()
      modifies this`xAxis, this`yAxis, this`yawSlider, this`pitchSlider, this`manualDistance, this`manualDistanceUp
      ensures Valid()
      ensures state == Automatic ==>
        && yawSlider == 0.0 && xAxis == 0.0 && yAxis == 0.0
        && pitchSlider == old(pitchSlider)
        && manualDistance == old(manualDistance) && manualDistanceUp == old(manualDistanceUp)
      ensures state != Automatic ==>
        && xAxis == SmoothedAxis(old(xAxis), input.horizontal)
        && yAxis == SmoothedAxis(old(yAxis), input.vertical)
        && yawSlider == YawStep(old(yawSlider), xAxis, minJoystickThreshold)
        && pitchSlider == PitchStep(old(pitchSlider), yAxis, minJoystickThreshold)
        && manualDistance == ManualDistance(attrs, pitchSlider)
        && manualDistanceUp == ManualDistanceUp(attrs, pitchSlider)
    {
      if state == Manual || state == FirstPerson || state == Hybrid {
        ManualStateUpdate(input);
      } else {
        yawSlider := 0.0;
        xAxis, yAxis := 0.0, 0.0;
      }
    }

    /**
     * The end of one first-person entry sequence, once the 0.2 s hold has
     * elapsed: if the pitch is still pinned and the stick still pushed, the
     * camera is in first person with its sliders reset to the follow
     * target's heading.
     */
    method CompleteFirstPersonEntry(followYawDegrees: real)
      requires Valid()
      requires 0.0 <= followYawDegrees < 360.0
      modifies this`state, this`pitchSlider, this`yawSlider, this`isFirstPersonned
      ensures Valid()
      ensures old(pitchSlider) == 1.0 && yAxis > 0.9 ==>
        && state == FirstPerson && isFirstPersonned
        && pitchSlider == 0.0 && yawSlider == followYawDegrees / 360.0
      ensures !(old(pitchSlider) == 1.0 && yAxis > 0.9) ==>
        && state == old(state) && isFirstPersonned == old(isFirstPersonned)
        && pitchSlider == old(pitchSlider) && yawSlider == old(yawSlider)
    {
      if pitchSlider == 1.0 && yAxis > 0.9 {
        SetState(FirstPerson);
        pitchSlider := 0.0;
        yawSlider := followYawDegrees / 360.0;
        isFirstPersonned := true;
      }
    }

    /** getAutomaticTargetPosition: re-aims the look direction at a point of interest, then places the target. */
    method AutomaticTargetPosition(s: Scene) returns (target: Vec3)
      modifies this`lookDirection
      ensures lookDirection == AutomaticLook(s, old(lookDirection))
      ensures target == AutomaticTarget(attrs, LastSensed(), s.followPosition, s.followUp, lookDirection)
    {
      if pointOfInterest != null {
        lookDirection := s.normalize(Sub(pointOfInterest.position, s.cameraPosition));
      }
      target := Sub(Add(s.followPosition, Scale(s.followUp, Lerp(attrs.distanceUp, heightModifier.BumpHeight, heightModifier.cliffHillRatio))),
                    Scale(lookDirection, Lerp(attrs.distance, heightModifier.BumpDistance, heightModifier.cliffHillRatio)));
    }

    method LateUpdateAutomaticState(s: Scene)
      modifies this`lookDirection, this`targetPosition
      ensures lookDirection == AutomaticLook(s, LookDirection(s))
      ensures targetPosition == Collide(AutomaticTarget(attrs, LastSensed(), s.followPosition, s.followUp, lookDirection),
                                        s.linecast(AutomaticTarget(attrs, LastSensed(), s.followPosition, s.followUp, lookDirection)),
                                        s.normalize, cameraCollisionDistanceMultiplier)
    {
      lookDirection := LookDirection(s);
      targetPosition := AutomaticTargetPosition(s);
      targetPosition := Collide(targetPosition, s.linecast(targetPosition), s.normalize, cameraCollisionDistanceMultiplier);
    }

    method LateUpdateManualState(now: real, s: Scene)
      modifies this`targetPosition, this`state
      ensures targetPosition == ManualTarget(s.followPosition, manualUp, manualDistanceUp, manualForward, manualDistance)
      ensures state == (if lastTimeManual + attrs.hybridDelayTime < now then Hybrid else old(state))
    {
      targetPosition := ManualTarget(s.followPosition, manualUp, manualDistanceUp, manualForward, manualDistance);
      if lastTimeManual + attrs.hybridDelayTime < now {
        state := Hybrid;
      }
    }

    /**
     * The hybrid frame: the shared profile's distances are overwritten with
     * their manual-to-normal blend while the target is computed, then put
     * back.
     */
    method LateUpdateHybridState(s: Scene)
      modifies this`lookDirection, this`attrs, this`targetPosition, this`state
      ensures attrs == old(attrs)
      ensures lookDirection == AutomaticLook(s, LookDirection(s))
      ensures var blend := HybridTarget(attrs, attrs.cameraModeInterpolation(modeRatio), manualDistance, manualDistanceUp,
                                        ManualTarget(s.followPosition, manualUp, manualDistanceUp, manualForward, manualDistance),
                                        LastSensed(), s.followPosition, s.followUp, lookDirection);
        targetPosition == Collide(blend, s.linecast(blend), s.normalize, cameraCollisionDistanceMultiplier)
      ensures state == (if modeRatio >= 1.0 then Automatic else old(state))
    {
      var normalDistance := attrs.distance;
      var normalDistanceUp := attrs.distanceUp;

      lookDirection := LookDirection(s);
      attrs := attrs.(distance := Lerp(manualDistance, normalDistance, attrs.cameraModeInterpolation(modeRatio)));
      attrs := attrs.(distanceUp := Lerp(manualDistanceUp, normalDistanceUp, attrs.cameraModeInterpolation(modeRatio)));
      var manualTarget := ManualTarget(s.followPosition, manualUp, manualDistanceUp, manualForward, manualDistance);
      var automaticTarget := AutomaticTargetPosition(s);
      targetPosition := LerpVec(manualTarget, automaticTarget, attrs.cameraModeInterpolation(modeRatio));

      targetPosition := Collide(targetPosition, s.linecast(targetPosition), s.normalize, cameraCollisionDistanceMultiplier);

      attrs := attrs.(distance := normalDistance);
      attrs := attrs.(distanceUp := normalDistanceUp);
      if modeRatio >= 1.0 {
        state := Automatic;
      }
    }

    /**
     * LateUpdate: place the target for the current mode, apply the timed
     * transitions, then run the terrain sensor for the next frame.
     */
    method LateUpdate(now: real, s: Scene)
      requires Valid() && ValidProbe(s.probe)
      modifies this`lookDirection, this`attrs, this`targetPosition, this`state, heightModifier
      ensures Valid()
      ensures state == ModeAfterLate(old(state), lastTimeManual, attrs, now, modeRatio)
      ensures attrs == old(attrs)
      ensures old(state) == FirstPerson ==> targetPosition == s.followPosition
      ensures old(state) == Manual ==>
        targetPosition == ManualTarget(s.followPosition, manualUp, manualDistanceUp, manualForward, manualDistance)
      ensures old(state) == Automatic || old(state) == Hybrid ==> lookDirection == AutomaticLook(s, LookDirection(s))
      ensures old(state) == Automatic ==>
        var auto := AutomaticTarget(attrs, old(LastSensed()), s.followPosition, s.followUp, lookDirection);
        targetPosition == Collide(auto, s.linecast(auto), s.normalize, cameraCollisionDistanceMultiplier)
      ensures old(state) == Hybrid ==>
        var blend := HybridTarget(attrs, attrs.cameraModeInterpolation(modeRatio), manualDistance, manualDistanceUp,
                                  ManualTarget(s.followPosition, manualUp, manualDistanceUp, manualForward, manualDistance),
                                  old(LastSensed()), s.followPosition, s.followUp, lookDirection);
        targetPosition == Collide(blend, s.linecast(blend), s.normalize, cameraCollisionDistanceMultiplier)
      ensures heightModifier.cliffHillRatio == SensedRatio(s.probe)
      ensures heightModifier.raycastHit == LastHit(s.probe)
      ensures heightModifier.smoothDampTime == old(heightModifier.smoothDampTime)
      ensures var height := s.smoothDamp(old(heightModifier.BumpHeight), BumpTargets(currentHeightAttributes, s.probe).0,
                                         old(heightModifier.bumpHeightSmooth), heightModifier.smoothDampTime);
        heightModifier.BumpHeight == height.value && heightModifier.bumpHeightSmooth == height.velocity
      ensures var distance := s.smoothDamp(old(heightModifier.BumpDistance), BumpTargets(currentHeightAttributes, s.probe).1,
                                           old(heightModifier.bumpDistanceSmooth), heightModifier.smoothDampTime);
        heightModifier.BumpDistance == distance.value && heightModifier.bumpDistanceSmooth == distance.velocity
    {
      match state {
        case Automatic =>
          LateUpdateAutomaticState(s);
        case Manual =>
          LateUpdateManualState(now, s);
        case FirstPerson =>
          targetPosition := s.followPosition;
        case Hybrid =>
          LateUpdateHybridState(s);
      }
      heightModifier.Calculate(currentHeightAttributes, s.probe, s.smoothDamp);
    }

    method ReplacePointOfInterest(newPointOfInterest: Transform?)
      modifies this`pointOfInterest
      ensures pointOfInterest == newPointOfInterest
    {
      pointOfInterest := newPointOfInterest;
    }

    method SetCameraAttributes(newCamAttrs: CameraAttributes)
      requires Valid() && WellFormed(newCamAttrs)
      modifies this`attrs
      ensures Valid() && attrs == newCamAttrs
    {
      attrs := newCamAttrs;
    }

    method ResetCameraAttributes()
      requires Valid()
      modifies this`attrs
      ensures Valid() && attrs == defaultAttrs
    {
      attrs := defaultAttrs;
    }

    method SetHeightAttributes(newHeightAttrs: HeightAttributes)
      modifies this`currentHeightAttributes
      ensures currentHeightAttributes == newHeightAttrs
    {
      currentHeightAttributes := newHeightAttrs;
    }

    method ResetHeightAttributes()
      modifies this`currentHeightAttributes
      ensures currentHeightAttributes == defaultHeightAttributes
    {
      currentHeightAttributes := defaultHeightAttributes;
    }
  }
}
