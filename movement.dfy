/**
 * The player's locomotion controller (Movement): a low-passed stick with a
 * dead zone, a debounced "grounded" test, and the ground-jump / double-jump
 * / extended-jump logic driving the vertical speed, with gravity applied on
 * every frame.  The controller's physics (CharacterController, Rigidbody)
 * is outside the model: what it reports comes in with each frame, and the
 * displacement handed to it is returned.
 */
module Locomotion {
  import opened Unity
  import opened Attributes
  import opened CameraControl

  /**
   * One frame as the controller sees it: the clock, the Fire1 (jump) and
   * Fire2 (freeze) buttons, the raw stick axes, what the character
   * controller reports, and the turn from stick space to the camera's
   * facing followed by normalisation.
   */
  datatype Frame = Frame(
    now: real,
    dt: real,
    jumpDown: bool,          // Fire1 pressed this frame
    jumpHeld: bool,          // Fire1 down
    jumpUp: bool,            // Fire1 released this frame
    freezeDown: bool,        // Fire2 pressed this frame
    horizontal: real,
    vertical: real,
    controllerGrounded: bool,
    orient: Vec3 -> Vec3
  )

  /** The jump state Move evolves: the vertical speed and the two jump flags. */
  datatype Jump = Jump(vSpeed: real, didJump: bool, didDoubleJump: bool)

  /** The tuning values and curves the jump arithmetic reads. */
  datatype JumpTuning = JumpTuning(
    groundJumpForce: real,
    airJumpForce: real,
    gravity: real,
    jumpMaxTime: real,
    jumpMaxExpandTime: real,
    jumpForceMultiplier: Curve,
    jumpExpandTimeMultiplier: Curve
  )

  /** The two jump windows divide. */
  predicate ValidTuning(t: JumpTuning) {
    t.jumpMaxTime > 0.0 && t.jumpMaxExpandTime > 0.0
  }

  /**
   * The serialised defaults of the two jump windows: `(1 / 60)` is an
   * integer division, so both windows are zero and the jump arithmetic
   * would divide by zero; the model takes the windows as parameters.
   */
  function SerializedJumpWindows(): (w: (real, real))
    ensures w.0 == 0.0 && w.1 == 0.0
  {
    (((1 / 60) * 10) as real, ((1 / 60) * 20) as real)
  }

  /** One low-pass step of a stick axis, clamped to [-1, 1]. */
  function LowPass(previous: real, raw: real, lag: real): (r: real)
    ensures -1.0 <= r <= 1.0
    // with in-range values the clamp never bites: the result is a blend lying between the two
    ensures 0.0 <= lag <= 1.0 && -1.0 <= previous <= 1.0 && -1.0 <= raw <= 1.0 ==>
      r == previous + (raw - previous) * lag && Min(previous, raw) <= r <= Max(previous, raw)
    ensures lag == 0.0 ==> r == Clamp(previous, -1.0, 1.0)
    ensures lag == 1.0 ==> r == Clamp(raw, -1.0, 1.0)
  {
    BlendBounds(previous, raw, lag);
    Clamp(previous * (1.0 - lag) + raw * lag, -1.0, 1.0)
  }

  lemma BlendBounds(previous: real, raw: real, lag: real)
    ensures previous * (1.0 - lag) + raw * lag == previous + (raw - previous) * lag
    ensures 0.0 <= lag <= 1.0 ==> Min(previous, raw) <= previous + (raw - previous) * lag <= Max(previous, raw)
  {
    if 0.0 <= lag <= 1.0 {
      InterpolationBounds(previous, raw, lag);
    }
  }

  /** The speed factor of a smoothed stick position: its squared length capped at 1, with a dead zone below 0.1. */
  function Speed(x: real, y: real): (r: real)
    ensures r == 0.0 || 0.1 <= r <= 1.0
    ensures x * x + y * y < 0.1 ==> r == 0.0
    ensures 0.1 <= x * x + y * y <= 1.0 ==> r == x * x + y * y
    ensures x * x + y * y >= 1.0 ==> r == 1.0
  {
    var m := Min(SqrMagnitude(Vec3(x, 0.0, y)), 1.0);
    if m < 0.1 then 0.0 else m
  }

  /** The stick is pushed far enough to turn the player (and to rule out the first-person view). */
  predicate StickDeflected(x: real, y: real) {
    SqrMagnitude(Vec3(x, 0.0, y)) > 0.1
  }

  /** A ground jump fires on release, or once the button has been held past the jump window. */
  predicate GroundJumpTriggered(f: Frame, tap: real, t: JumpTuning) {
    f.jumpUp || (f.jumpHeld && f.now - tap > t.jumpMaxTime)
  }

  /** A held button keeps extending the jump until the expand window after the jump window closes. */
  predicate InExpandWindow(f: Frame, tap: real, t: JumpTuning) {
    f.now - (tap + t.jumpMaxTime) < t.jumpMaxExpandTime
  }

  /** The take-off speed of a ground jump after holding the button for `held` seconds. */
  function GroundImpulse(t: JumpTuning, held: real): (r: real)
    requires ValidTuning(t)
    ensures held <= 0.0 ==> r == t.groundJumpForce * t.jumpForceMultiplier(0.0)
    ensures held >= t.jumpMaxTime ==> r == t.groundJumpForce * t.jumpForceMultiplier(1.0)
  {
    var s := held / t.jumpMaxTime;
    NormalisedBounds(s, t.jumpMaxTime, held);
    t.groundJumpForce * t.jumpForceMultiplier(Clamp01(s))
  }

  /**
   * The lift an extended jump adds in one frame.  The curve is read at
   * `(now - tap + jumpMaxTime) / jumpMaxExpandTime`, with the window added
   * rather than subtracted.
   */
  function ExpandBoost(t: JumpTuning, f: Frame, tap: real): (r: real)
    requires ValidTuning(t)
    // with a curve valued in [0, 1], the lift never outweighs the frame's gravity
    ensures t.gravity >= 0.0 && f.dt >= 0.0 && (forall c :: 0.0 <= c <= 1.0 ==> 0.0 <= t.jumpExpandTimeMultiplier(c) <= 1.0) ==>
      0.0 <= r <= t.gravity * f.dt
  {
    var c := t.jumpExpandTimeMultiplier(Clamp01((f.now - tap + t.jumpMaxTime) / t.jumpMaxExpandTime));
    LiftBound(c, t.gravity, f.dt);
    c * t.gravity * f.dt
  }

  lemma LiftBound(c: real, gravity: real, dt: real)
    ensures gravity >= 0.0 && dt >= 0.0 && 0.0 <= c <= 1.0 ==> 0.0 <= c * gravity * dt <= gravity * dt
  {
    if gravity >= 0.0 && dt >= 0.0 && 0.0 <= c <= 1.0 {
      assert gravity * dt >= 0.0;
      FractionOf(gravity * dt, c);
      assert c * gravity * dt == (gravity * dt) * c;
    }
  }

  /**
   * One frame of the jump logic, given whether the player counts as
   * grounded at the start of the frame and when the jump button was last
   * pressed.  Gravity is subtracted at the end of every frame.
   */
  function JumpStep(j: Jump, grounded: bool, f: Frame, tap: real, t: JumpTuning): (r: Jump)
    requires ValidTuning(t)
    // grounded: both flags are cleared, and a ground jump is taken exactly when triggered
    ensures grounded ==> !r.didDoubleJump && (r.didJump <==> GroundJumpTriggered(f, tap, t))
    ensures grounded && r.didJump ==> r.vSpeed == GroundImpulse(t, f.now - tap) - t.gravity * f.dt
    ensures grounded && !r.didJump ==> r.vSpeed == -t.gravity * f.dt
    // airborne: the ground-jump flag is untouched
    ensures !grounded ==> r.didJump == j.didJump
    // a double jump starts only on a fresh press in the air, once per flight
    ensures r.didDoubleJump && !j.didDoubleJump ==> !grounded && f.jumpDown && r.vSpeed == t.airJumpForce - t.gravity * f.dt
    ensures !grounded && j.didDoubleJump ==> r == Jump(j.vSpeed - t.gravity * f.dt, j.didJump, true)
    ensures !grounded && !j.didDoubleJump && f.jumpDown ==> r.didDoubleJump
    // airborne without a press: the speed only gains the extended-jump lift while the button is held
    ensures !grounded && !j.didDoubleJump && !f.jumpDown ==>
      && !r.didDoubleJump
      && r.vSpeed == j.vSpeed + (if f.jumpHeld && InExpandWindow(f, tap, t) then ExpandBoost(t, f, tap) else 0.0) - t.gravity * f.dt
  {
    var kicked := JumpKick(j, grounded, f, tap, t);
    kicked.(vSpeed := kicked.vSpeed - t.gravity * f.dt)
  }

  lemma KickThenGravity(j: Jump, grounded: bool, f: Frame, tap: real, t: JumpTuning, kicked: Jump)
    requires ValidTuning(t) && kicked == JumpKick(j, grounded, f, tap, t)
    ensures JumpStep(j, grounded, f, tap, t) == kicked.(vSpeed := kicked.vSpeed - t.gravity * f.dt)
  {
  }

  /** The jump state of a frame before gravity is applied. */
  function JumpKick(j: Jump, grounded: bool, f: Frame, tap: real, t: JumpTuning): Jump
    requires ValidTuning(t)
  {
    if grounded then
      if GroundJumpTriggered(f, tap, t) then Jump(GroundImpulse(t, f.now - tap), true, false)
      else Jump(0.0, false, false)
    else if j.didDoubleJump then j
    else if f.jumpDown then Jump(t.airJumpForce, j.didJump, true)
    else if f.jumpHeld && InExpandWindow(f, tap, t) then j.(vSpeed := j.vSpeed + ExpandBoost(t, f, tap))
    else j
  }

  /** A longer hold never weakens a ground jump when the force curve is non-decreasing on [0, 1]. */
  lemma GroundImpulseMonotone(t: JumpTuning, held1: real, held2: real)
    requires ValidTuning(t) && t.groundJumpForce >= 0.0
    requires forall a, b :: 0.0 <= a <= b <= 1.0 ==> t.jumpForceMultiplier(a) <= t.jumpForceMultiplier(b)
    requires held1 <= held2
    ensures GroundImpulse(t, held1) <= GroundImpulse(t, held2)
  {
    var s1, s2 := held1 / t.jumpMaxTime, held2 / t.jumpMaxTime;
    DivMonotone(held1, held2, t.jumpMaxTime);
    var c1, c2 := Clamp01(s1), Clamp01(s2);
    var f1, f2 := t.jumpForceMultiplier(c1), t.jumpForceMultiplier(c2);
    assert f1 <= f2;
    assert GroundImpulse(t, held1) == t.groundJumpForce * f1;
    assert GroundImpulse(t, held2) == t.groundJumpForce * f2;
    MulMonotone(f1, f2, t.groundJumpForce);
  }

  /** The press time the controller records for a frame: the frame's time when the button went down. */
  function TapAfter(f: Frame, tap: real): real {
    if f.jumpDown then f.now else tap
  }

  /** The jump state after a run of frames during which the player never counts as grounded. */
  function AirborneRun(j: Jump, frames: seq<Frame>, tap: real, t: JumpTuning): Jump
    requires ValidTuning(t)
    decreases |frames|
  {
    if frames == [] then j
    else
      var tap' := TapAfter(frames[0], tap);
      AirborneRun(JumpStep(j, false, frames[0], tap', t), frames[1..], tap', t)
  }

  /** The time a run of frames spans. */
  function Elapsed(frames: seq<Frame>): real
    decreases |frames|
  {
    if frames == [] then 0.0 else frames[0].dt + Elapsed(frames[1..])
  }

  predicate NoJumpButton(f: Frame) { !f.jumpDown && !f.jumpHeld }

  /**
   * Once the double jump is spent, or while the jump button is left alone,
   * a flight is purely ballistic: gravity removes `gravity * elapsed` from
   * the vertical speed and neither flag changes, so no second air jump can
   * happen before the player is grounded again.
   */
  lemma {:induction false} BallisticFlight(j: Jump, frames: seq<Frame>, tap: real, t: JumpTuning)
    requires ValidTuning(t)
    requires j.didDoubleJump || forall i :: 0 <= i < |frames| ==> NoJumpButton(frames[i])
    ensures AirborneRun(j, frames, tap, t) == Jump(j.vSpeed - t.gravity * Elapsed(frames), j.didJump, j.didDoubleJump)
    decreases |frames|
  {
    if frames != [] {
      var f, rest := frames[0], frames[1..];
      var tap' := TapAfter(f, tap);
      var next := JumpStep(j, false, f, tap', t);
      assert !j.didDoubleJump ==> NoJumpButton(frames[0]);
      assert next == Jump(j.vSpeed - t.gravity * f.dt, j.didJump, j.didDoubleJump);
      assert next.didDoubleJump || forall i :: 0 <= i < |rest| ==> NoJumpButton(rest[i]) by {
        if !next.didDoubleJump {
          forall i | 0 <= i < |rest| ensures NoJumpButton(rest[i]) {
            assert rest[i] == frames[i + 1];
          }
        }
      }
      BallisticFlight(next, rest, tap', t);
      assert Elapsed(frames) == f.dt + Elapsed(rest);
      assert t.gravity * Elapsed(frames) == t.gravity * f.dt + t.gravity * Elapsed(rest);
    }
  }

  /** Scaling by a factor in [0, 1] never lengthens a vector. */
  lemma ShrinkingScale(v: Vec3, k: real)
    requires 0.0 <= k <= 1.0
    ensures SqrMagnitude(Scale(v, k)) <= SqrMagnitude(v)
  {
    var m := SqrMagnitude(v);
    assert m >= 0.0 by {
      assert v.x * v.x >= 0.0 && v.y * v.y >= 0.0 && v.z * v.z >= 0.0;
    }
    assert SqrMagnitude(Scale(v, k)) == (k * k) * m;
    FractionOf(1.0, k);
    FractionOf(k, k);
    MulMonotone(k * k, 1.0, m);
  }

  /** The tuning values that shape horizontal motion in the air. */
  datatype AirTuning = AirTuning(
    airInertia: real,
    aerodynamic: real,
    airInertiaDecreaser: real,
    airControl: real,
    airControlDoubleJump: real
  )

  /** The stick turned to the camera's facing, normalised and scaled by the speed. */
  function Steering(orient: Vec3 -> Vec3, x: real, y: real, speed: real, speedMultiplier: real): (r: Vec3)
    ensures speed == 0.0 ==> r == Zero
    // a unit direction gives a steering of length speed × multiplier
    ensures SqrMagnitude(orient(Vec3(x, 0.0, y))) == 1.0 ==>
      SqrMagnitude(r) == (speed * speedMultiplier) * (speed * speedMultiplier)
  {
    ScaleSqrMagnitude(orient(Vec3(x, 0.0, y)), speed * speedMultiplier);
    Scale(orient(Vec3(x, 0.0, y)), speed * speedMultiplier)
  }

  /** The horizontal motion of a frame: full steering on the ground, the air-control share in the air. */
  function HorizontalMotion(steer: Vec3, grounded: bool, doubleJumped: bool, air: AirTuning): (r: Vec3)
    ensures grounded ==> r == steer
    // the default full air control keeps the steering before the double jump
    ensures !doubleJumped && air.airControl == 1.0 ==> r == steer
    // air-control shares in [0, 1] never steer harder than the ground does
    ensures 0.0 <= air.airControl <= 1.0 && 0.0 <= air.airControlDoubleJump <= 1.0 ==> SqrMagnitude(r) <= SqrMagnitude(steer)
  {
    if grounded then steer
    else if !doubleJumped then
      ScaleTwice(steer, 1.0, 1.0);
      AirShare(steer, air.airControl);
      Scale(steer, air.airControl)
    else
      AirShare(steer, air.airControlDoubleJump);
      Scale(steer, air.airControlDoubleJump)
  }

  lemma AirShare(steer: Vec3, k: real)
    ensures 0.0 <= k <= 1.0 ==> SqrMagnitude(Scale(steer, k)) <= SqrMagnitude(steer)
    ensures k == 1.0 ==> Scale(steer, k) == steer
  {
    if 0.0 <= k <= 1.0 {
      ShrinkingScale(steer, k);
    }
  }

  /** The momentum carried into the air: recorded on the ground, decaying in the air, faster after a double jump. */
  function Momentum(previous: Vec3, steer: Vec3, grounded: bool, doubleJumped: bool, air: AirTuning): (r: Vec3)
    ensures grounded ==> r == steer
    ensures !grounded && 0.0 <= air.aerodynamic <= 1.0 && 0.0 <= air.airInertiaDecreaser <= 1.0 ==>
      SqrMagnitude(r) <= SqrMagnitude(previous)
  {
    if grounded then steer
    else
      var decayed := Scale(previous, air.aerodynamic);
      var r := if !doubleJumped then decayed else Scale(decayed, air.airInertiaDecreaser);
      MomentumDecays(previous, air.aerodynamic, air.airInertiaDecreaser);
      r
  }

  /** With the decreaser in [0, 1], a frame after the double jump keeps no more momentum than one before it. */
  lemma DoubleJumpDecaysFaster(previous: Vec3, steer: Vec3, air: AirTuning)
    requires 0.0 <= air.airInertiaDecreaser <= 1.0
    ensures SqrMagnitude(Momentum(previous, steer, false, true, air)) <= SqrMagnitude(Momentum(previous, steer, false, false, air))
  {
    ShrinkingScale(Scale(previous, air.aerodynamic), air.airInertiaDecreaser);
  }

  function Pow(k: real, n: nat): real
    decreases n
  {
    if n == 0 then 1.0 else k * Pow(k, n - 1)
  }

  lemma PowStep(k: real, n: nat)
    ensures Pow(k, n + 1) == k * Pow(k, n)
  {
  }

  /** The carried momentum after a run of airborne frames before the double jump, one steering value per frame. */
  function Glide(momentum: Vec3, steers: seq<Vec3>, air: AirTuning): Vec3
    decreases |steers|
  {
    if |steers| == 0 then momentum
    else Glide(Momentum(momentum, steers[0], false, false, air), steers[1..], air)
  }

  /** Each airborne frame before the double jump multiplies the carried momentum by the aerodynamic factor, whatever the steering. */
  lemma {:induction false} GlideDecay(momentum: Vec3, steers: seq<Vec3>, air: AirTuning)
    ensures Glide(momentum, steers, air) == Scale(momentum, Pow(air.aerodynamic, |steers|))
    decreases |steers|
  {
    if |steers| > 0 {
      var k := air.aerodynamic;
      assert Momentum(momentum, steers[0], false, false, air) == Scale(momentum, k);
      assert Glide(momentum, steers, air) == Glide(Scale(momentum, k), steers[1..], air);
      GlideDecay(Scale(momentum, k), steers[1..], air);
      var n: nat := |steers| - 1;
      assert |steers[1..]| == n;
      PowStep(k, n);
      ScaleTwice(momentum, k, Pow(k, n));
      assert Scale(momentum, k * Pow(k, n)) == Scale(momentum, Pow(k, |steers|));
    } else {
      ScaleTwice(momentum, 1.0, 1.0);
    }
  }

  lemma MomentumDecays(v: Vec3, k1: real, k2: real)
    ensures 0.0 <= k1 <= 1.0 && 0.0 <= k2 <= 1.0 ==>
      SqrMagnitude(Scale(v, k1)) <= SqrMagnitude(v) && SqrMagnitude(Scale(Scale(v, k1), k2)) <= SqrMagnitude(v)
  {
    if 0.0 <= k1 <= 1.0 && 0.0 <= k2 <= 1.0 {
      ShrinkingScale(v, k1);
      ShrinkingScale(Scale(v, k1), k2);
    }
  }

  /** The displacement handed to the character controller for one frame. */
  function Displacement(horizontal: Vec3, vSpeed: real, stillGrounded: bool, momentum: Vec3,
                        air: AirTuning, nullifier: int, dt: real): (r: Vec3)
    ensures nullifier == 0 ==> r == Zero
  {
    var motion := horizontal.(y := vSpeed);
    var total := if stillGrounded then motion else Add(motion, Scale(momentum, air.airInertia));
    Scale(total, nullifier as real * dt)
  }

  /**
   * The debounced grounded test: never right after a jump, always while
   * the controller reports ground, and otherwise only until `delay`
   * seconds have passed since the controller left the ground.
   */
  function Grounded(didJump: bool, controllerGrounded: bool, sinceLeft: real, delay: real): (g: bool)
    ensures didJump ==> !g
    ensures !didJump && controllerGrounded ==> g
    ensures !didJump && !controllerGrounded ==> (g <==> sinceLeft <= delay)
  {
    if didJump then false
    else !(!controllerGrounded && sinceLeft > delay)
  }

  /** The nullifier scales the whole of the frame's displacement. */
  lemma DisplacementScales(horizontal: Vec3, vSpeed: real, stillGrounded: bool, momentum: Vec3,
                           air: AirTuning, nullifier: int, dt: real)
    ensures Displacement(horizontal, vSpeed, stillGrounded, momentum, air, nullifier, dt)
         == Scale(Displacement(horizontal, vSpeed, stillGrounded, momentum, air, 1, dt), nullifier as real)
  {
    var motion := horizontal.(y := vSpeed);
    var total := if stillGrounded then motion else Add(motion, Scale(momentum, air.airInertia));
    ScaleTwice(total, 1 as real * dt, nullifier as real);
    assert (1 as real * dt) * nullifier as real == nullifier as real * dt;
  }

  /**
   * On the ground the carried momentum plays no part and the vertical
   * displacement is the vertical speed over the frame; in the air the
   * carried momentum adds its inertia-scaled share on top.
   */
  lemma DisplacementComposition(horizontal: Vec3, vSpeed: real, momentum: Vec3, other: Vec3,
                                air: AirTuning, nullifier: int, dt: real)
    ensures Displacement(horizontal, vSpeed, true, momentum, air, nullifier, dt)
         == Displacement(horizontal, vSpeed, true, other, air, nullifier, dt)
    ensures Displacement(horizontal, vSpeed, true, momentum, air, nullifier, dt).y == vSpeed * (nullifier as real * dt)
    ensures Displacement(horizontal, vSpeed, false, momentum, air, nullifier, dt)
         == Add(Displacement(horizontal, vSpeed, true, momentum, air, nullifier, dt),
                Scale(momentum, air.airInertia * (nullifier as real * dt)))
  {
    var k := nullifier as real * dt;
    var motion := horizontal.(y := vSpeed);
    var carried := Scale(momentum, air.airInertia);
    ScaleTwice(momentum, air.airInertia, k);
    assert Scale(Add(motion, carried), k) == Add(Scale(motion, k), Scale(carried, k));
  }

  class Movement {
    const cameraCtrl: PlatformerCamera
    const standardLagCoeff: real
    const speedMultiplier: real
    const airInertia: real
    const aerodynamic: real
    const airInertiaDecreaser: real
    const airControl: real
    const airControlDoubleJump: real
    const groundJumpForce: real
    const airJumpForce: real
    const jumpExpandTimeMultiplier: Curve
    const jumpMaxExpandTime: real
    const jumpForceMultiplier: Curve
    const jumpMaxTime: real
    const groundedDelay: real

    var gravity: real
    var xAxis: real
    var yAxis: real
    var speed: real
    var vSpeed: real
    var moveDirectionBeforejump: Vec3
    var mouvDirNullifier: int
    var jumpTimeTap: real
    var didJump: bool
    var didDoubleJump: bool
    var notGroundedTime: real
    var oldGrounded: bool
    var isKinematic: bool       // the rigidbody's flag
    var controllerEnabled: bool // the character controller's flag

    /** The jump windows are divisors. */
    ghost predicate Valid()
      reads this
    {
      jumpMaxTime > 0.0 && jumpMaxExpandTime > 0.0
    }

    /**
     * The serialised defaults and Start, which reads the controller's
     * grounded flag.  The jump windows and curves are inspector settings,
     * so they are parameters (the windows' own defaults are zero).
     */
    constructor (cameraCtrl: PlatformerCamera, jumpMaxTime: real, jumpMaxExpandTime: real,
                 jumpForceMultiplier: Curve, jumpExpandTimeMultiplier: Curve,
                 controllerGrounded: bool, isKinematic: bool, controllerEnabled: bool)
      requires jumpMaxTime > 0.0 && jumpMaxExpandTime > 0.0
      ensures Valid()
      ensures this.cameraCtrl == cameraCtrl
      ensures standardLagCoeff == 0.2 && speedMultiplier == 12.0 && gravity == 9.8
      ensures airInertia == 1.0 && aerodynamic == 0.99 && airInertiaDecreaser == 0.95
      ensures airControl == 1.0 && airControlDoubleJump == 1.0
      ensures groundJumpForce == 5.0 && airJumpForce == 3.0 && groundedDelay == 0.1
      ensures this.jumpMaxTime == jumpMaxTime && this.jumpMaxExpandTime == jumpMaxExpandTime
      ensures this.jumpForceMultiplier == jumpForceMultiplier && this.jumpExpandTimeMultiplier == jumpExpandTimeMultiplier
      ensures vSpeed == 0.0 && mouvDirNullifier == 1 && !didJump && !didDoubleJump
      ensures xAxis == 0.0 && yAxis == 0.0 && speed == 0.0
      ensures jumpTimeTap == 0.0 && notGroundedTime == 0.0 && moveDirectionBeforejump == Zero
      ensures oldGrounded == controllerGrounded
      ensures this.isKinematic == isKinematic && this.controllerEnabled == controllerEnabled
    {
      this.cameraCtrl := cameraCtrl;
      standardLagCoeff := 0.2;
      speedMultiplier := 12.0;
      airInertia := 1.0;
      aerodynamic := 0.99;
      airInertiaDecreaser := 0.95;
      airControl := 1.0;
      airControlDoubleJump := 1.0;
      groundJumpForce := 5.0;
      airJumpForce := 3.0;
      this.jumpExpandTimeMultiplier := jumpExpandTimeMultiplier;
      this.jumpMaxExpandTime := jumpMaxExpandTime;
      this.jumpForceMultiplier := jumpForceMultiplier;
      this.jumpMaxTime := jumpMaxTime;
      groundedDelay := 0.1;
      gravity := 9.8;
      xAxis, yAxis, speed, vSpeed := 0.0, 0.0, 0.0, 0.0;
      moveDirectionBeforejump := Zero;
      mouvDirNullifier := 1;
      jumpTimeTap := 0.0;
      didJump, didDoubleJump := false, false;
      notGroundedTime := 0.0;
      oldGrounded := controllerGrounded;
      this.isKinematic := isKinematic;
      this.controllerEnabled := controllerEnabled;
    }

    /** Whether the player counts as grounded at time `now`. */
    function IsGrounded(controllerGrounded: bool, now: real): bool
      reads this`didJump, this`notGroundedTime
    {
      Grounded(didJump, controllerGrounded, now - notGroundedTime, groundedDelay)
    }

    function Tuning(): JumpTuning
      reads this`gravity
    {
      JumpTuning(groundJumpForce, airJumpForce, gravity, jumpMaxTime, jumpMaxExpandTime,
                 jumpForceMultiplier, jumpExpandTimeMultiplier)
    }

    function Air(): AirTuning {
      AirTuning(airInertia, aerodynamic, airInertiaDecreaser, airControl, airControlDoubleJump)
    }

    function Jumps(): Jump
      reads this`vSpeed, this`didJump, this`didDoubleJump
    {
      Jump(vSpeed, didJump, didDoubleJump)
    }

    /** This frame's steering, from the smoothed stick and the speed factor. */
    function Steer(orient: Vec3 -> Vec3): Vec3
      reads this`xAxis, this`yAxis, this`speed
    {
      Steering(orient, xAxis, yAxis, speed, speedMultiplier)
    }

    /** Reads the stick: low-pass both axes, clamp them, and derive the speed factor. */
    method ControllerInput(horizontal: real, vertical: real)
      modifies this`xAxis, this`yAxis, this`speed
      ensures xAxis == LowPass(old(xAxis), horizontal, standardLagCoeff)
      ensures yAxis == LowPass(old(yAxis), vertical, standardLagCoeff)
      ensures -1.0 <= xAxis <= 1.0 && -1.0 <= yAxis <= 1.0
      ensures speed == Speed(xAxis, yAxis)
    {
      xAxis := xAxis * (1.0 - standardLagCoeff) + horizontal * standardLagCoeff;
      yAxis := yAxis * (1.0 - standardLagCoeff) + vertical * standardLagCoeff;
      xAxis := Clamp(xAxis, -1.0, 1.0);
      yAxis := Clamp(yAxis, -1.0, 1.0);
      var sqr := SqrMagnitude(Vec3(xAxis, 0.0, yAxis));
      speed := Min(sqr, 1.0);
      speed := if speed < 0.1 then 0.0 else speed;
    }

    /** The grounded half of Move's jump logic: clear both flags, then take off if the button says so. */
    method GroundedJump(f: Frame)
      requires Valid()
      modifies this`vSpeed, this`didJump, this`didDoubleJump
      ensures Jumps() == JumpKick(old(Jumps()), true, f, jumpTimeTap, Tuning())
    {
      vSpeed := 0.0;
      didJump := false;
      didDoubleJump := false;
      // the flag was cleared just above, so only the button decides
      if !didJump && (f.jumpUp || (f.jumpHeld && f.now - jumpTimeTap > jumpMaxTime)) {
        vSpeed := groundJumpForce * jumpForceMultiplier(Clamp01((f.now - jumpTimeTap) / jumpMaxTime));
        didJump := true;
      }
    }

    /** The airborne jump logic before the double jump is spent: a fresh press double-jumps, a hold extends. */
    method AirJump(f: Frame)
      requires Valid() && !didDoubleJump
      modifies this`vSpeed, this`didDoubleJump
      ensures Jumps() == JumpKick(old(Jumps()), false, f, jumpTimeTap, Tuning())
    {
      if f.jumpDown {
        vSpeed := airJumpForce;
        didDoubleJump := true;
      } else if f.jumpHeld && f.now - (jumpTimeTap + jumpMaxTime) < jumpMaxExpandTime {
        vSpeed := vSpeed + jumpExpandTimeMultiplier(Clamp01((f.now - jumpTimeTap + jumpMaxTime) / jumpMaxExpandTime)) * gravity * f.dt;
      }
    }

    /**
     * Move's horizontal half: on the ground the steering is recorded as the
     * momentum to carry into a jump; in the air the momentum decays and the
     * steering is cut to the air-control share.
     */
    method Carry(steer: Vec3, grounded: bool) returns (horizontal: Vec3)
      modifies this`moveDirectionBeforejump
      ensures horizontal == HorizontalMotion(steer, grounded, didDoubleJump, Air())
      ensures moveDirectionBeforejump == Momentum(old(moveDirectionBeforejump), steer, grounded, didDoubleJump, Air())
    {
      horizontal := steer;
      if grounded {
        moveDirectionBeforejump := steer;
      } else {
        moveDirectionBeforejump := Scale(moveDirectionBeforejump, aerodynamic);
        if !didDoubleJump {
          horizontal := Scale(horizontal, airControl);
        } else {
          moveDirectionBeforejump := Scale(moveDirectionBeforejump, airInertiaDecreaser);
          horizontal := Scale(horizontal, airControlDoubleJump);
        }
      }
    }

    /**
     * Move's vertical half: the grounded or airborne jump logic, then
     * gravity, which every frame pays whichever branch ran.
     */
    method Jumping(f: Frame, grounded: bool)
      requires Valid()
      modifies this`vSpeed, this`didJump, this`didDoubleJump
      ensures Jumps() == JumpStep(old(Jumps()), grounded, f, jumpTimeTap, Tuning())
    {
      if grounded {
        GroundedJump(f);
      } else if !didDoubleJump {
        AirJump(f);
      }
      KickThenGravity(old(Jumps()), grounded, f, jumpTimeTap, Tuning(), Jumps());
      vSpeed := vSpeed - gravity * f.dt;
    }

    /** The end of Move: the displacement handed to the controller, then the nullifier re-armed. */
    method Thrust(f: Frame, horizontal: Vec3) returns (displacement: Vec3)
      modifies this`mouvDirNullifier
      ensures displacement == Displacement(horizontal, vSpeed, IsGrounded(f.controllerGrounded, f.now),
                                           moveDirectionBeforejump, Air(), old(mouvDirNullifier), f.dt)
      ensures mouvDirNullifier == 1
    {
      var moveDirection := horizontal.(y := vSpeed);
      if !IsGrounded(f.controllerGrounded, f.now) {
        moveDirection := Add(moveDirection, Scale(moveDirectionBeforejump, airInertia));
      }
      displacement := Scale(moveDirection, mouvDirNullifier as real * f.dt);
      mouvDirNullifier := 1;
    }

    /**
     * One frame of motion: the jump logic, the carried momentum, whether the
     * camera may go first-person, and the displacement handed to the
     * character controller, scaled by the one-shot nullifier that is then
     * re-armed to 1.  The horizontal updates are done before the vertical
     * ones; they touch disjoint fields, so the order does not matter.
     */
    method Move(f: Frame) returns (displacement: Vec3)
      requires Valid()
      modifies this`vSpeed, this`didJump, this`didDoubleJump, this`moveDirectionBeforejump,
               this`mouvDirNullifier, cameraCtrl`allowedToFirstPerson
      ensures var grounded := old(IsGrounded(f.controllerGrounded, f.now));
        && Jumps() == JumpStep(old(Jumps()), grounded, f, jumpTimeTap, Tuning())
        && moveDirectionBeforejump == Momentum(old(moveDirectionBeforejump), Steer(f.orient), grounded, old(didDoubleJump), Air())
        && cameraCtrl.allowedToFirstPerson == (grounded && !StickDeflected(xAxis, yAxis))
        && displacement == Displacement(HorizontalMotion(Steer(f.orient), grounded, old(didDoubleJump), Air()), vSpeed,
                                        IsGrounded(f.controllerGrounded, f.now), moveDirectionBeforejump,
                                        Air(), old(mouvDirNullifier), f.dt)
      ensures mouvDirNullifier == 1
    {
      var moveDirection := Steer(f.orient);
      cameraCtrl.allowedToFirstPerson := true;
      if StickDeflected(xAxis, yAxis) {
        cameraCtrl.allowedToFirstPerson := false;
      }
      var grounded := IsGrounded(f.controllerGrounded, f.now);
      if !grounded {
        // no first-person view while in the air
        cameraCtrl.allowedToFirstPerson := false;
      }
      moveDirection := Carry(moveDirection, grounded);
      Jumping(f, grounded);
      displacement := Thrust(f, moveDirection);
    }

    /** Negates both physics flags. */
    method Freeze()
      modifies this`isKinematic, this`controllerEnabled
      ensures isKinematic == !old(isKinematic) && controllerEnabled == !old(controllerEnabled)
    {
      isKinematic := !isKinematic;
      controllerEnabled := !controllerEnabled;
    }

    /** Freezing twice restores both physics flags. */
    method FreezeTwice()
      modifies this`isKinematic, this`controllerEnabled
      ensures isKinematic == old(isKinematic) && controllerEnabled == old(controllerEnabled)
    {
      Freeze();
      Freeze();
    }

    /**
     * One rendered frame: record a jump press, read the stick, move, and
     * toggle the freeze on a Fire2 press.
     */
    method Update(f: Frame) returns (displacement: Vec3)
      requires Valid()
      modifies this`jumpTimeTap, this`xAxis, this`yAxis, this`speed,
               this`vSpeed, this`didJump, this`didDoubleJump, this`moveDirectionBeforejump,
               this`mouvDirNullifier, cameraCtrl`allowedToFirstPerson,
               this`isKinematic, this`controllerEnabled
      ensures jumpTimeTap == TapAfter(f, old(jumpTimeTap))
      ensures xAxis == LowPass(old(xAxis), f.horizontal, standardLagCoeff)
      ensures yAxis == LowPass(old(yAxis), f.vertical, standardLagCoeff)
      ensures speed == Speed(xAxis, yAxis)
      ensures var grounded := old(IsGrounded(f.controllerGrounded, f.now));
        && Jumps() == JumpStep(old(Jumps()), grounded, f, jumpTimeTap, Tuning())
        && moveDirectionBeforejump == Momentum(old(moveDirectionBeforejump), Steer(f.orient), grounded, old(didDoubleJump), Air())
        && cameraCtrl.allowedToFirstPerson == (grounded && !StickDeflected(xAxis, yAxis))
        && displacement == Displacement(HorizontalMotion(Steer(f.orient), grounded, old(didDoubleJump), Air()), vSpeed,
                                        IsGrounded(f.controllerGrounded, f.now), moveDirectionBeforejump,
                                        Air(), old(mouvDirNullifier), f.dt)
      ensures mouvDirNullifier == 1
      ensures isKinematic == (old(isKinematic) != f.freezeDown)
      ensures controllerEnabled == (old(controllerEnabled) != f.freezeDown)
    {
      if f.jumpDown {
        jumpTimeTap := f.now;
      }
      ControllerInput(f.horizontal, f.vertical);
      displacement := Move(f);
      if f.freezeDown {
        Freeze();
      }
    }

    /** After physics: a jump is over once the controller touches ground again. */
    method LateUpdate(controllerGrounded: bool)
      modifies this`didJump
      ensures didJump == (old(didJump) && !controllerGrounded)
    {
      if controllerGrounded && didJump {
        didJump := false;
      }
    }

    /** Physics step: timestamp the moment the controller leaves the ground, and remember the flag. */
    method FixedUpdate(controllerGrounded: bool, now: real)
      modifies this`notGroundedTime, this`oldGrounded
      ensures notGroundedTime == if old(oldGrounded) && !controllerGrounded then now else old(notGroundedTime)
      ensures oldGrounded == controllerGrounded
    {
      if !controllerGrounded && oldGrounded {
        notGroundedTime := now;
      }
      oldGrounded := controllerGrounded;
    }

    method SetGravity(value: real)
      modifies this`gravity
      ensures gravity == value
    {
      gravity := value;
    }

    method SetDidJump(value: bool)
      modifies this`didJump
      ensures didJump == value
    {
      didJump := value;
    }

    method SetDidDoubleJump(value: bool)
      modifies this`didDoubleJump
      ensures didDoubleJump == value
    {
      didDoubleJump := value;
    }

    method SetMouvDirNullifier(value: int)
      modifies this`mouvDirNullifier
      ensures mouvDirNullifier == value
    {
      mouvDirNullifier := value;
    }

    method SetMoveDirectionBeforejump(value: Vec3)
      modifies this`moveDirectionBeforejump
      ensures moveDirectionBeforejump == value
    {
      moveDirectionBeforejump := value;
    }

    method SetVSpeed(value: real)
      modifies this`vSpeed
      ensures vSpeed == value
    {
      vSpeed := value;
    }
  }
}
