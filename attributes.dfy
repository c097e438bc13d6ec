/**
 * The two attribute profiles the camera is configured with.  In the game
 * they are design-time assets that zones hand to the camera by reference;
 * here they are immutable values, and "swapping the reference" is
 * assigning a different value to the camera's slot.
 */
module Attributes {
  import opened Unity

  /** An AnimationCurve, observed only through what it evaluates to. */
  type Curve = real -> real

  /** AnimationCurve.Linear(0, 0, 1, 1): the identity on [0, 1], clamped to its end keys outside. */
  function LinearCurve(t: real): (r: real)
    ensures 0.0 <= t <= 1.0 ==> r == t
    ensures t <= 0.0 ==> r == 0.0
    ensures t >= 1.0 ==> r == 1.0
  {
    Clamp01(t)
  }

  /** The camera's placement and timing profile. */
  datatype CameraAttributes = CameraAttributes(
    distance: real,
    distanceUp: real,
    manualMinDistance: real,
    manualMinDistanceUp: real,
    manualMaxDistance: real,
    manualMaxDistanceUp: real,
    cameraModeInterpolation: Curve, // 0 is the manual placement, 1 the automatic one
    autoSwitchTime: real,           // how long the hybrid blend takes to regain automatic
    hybridDelayTime: real           // how long the camera stays manual after the last input
  )

  /** What the camera arithmetic relies on: the blend duration divides. */
  predicate WellFormed(a: CameraAttributes) {
    a.autoSwitchTime > 0.0
  }

  /** The values a freshly created CameraAttributes asset carries. */
  function DefaultCameraAttributes(): (a: CameraAttributes)
    ensures WellFormed(a)
    ensures a.manualMinDistance < a.distance < a.manualMaxDistance
    ensures a.manualMinDistanceUp < a.distanceUp < a.manualMaxDistanceUp
    ensures a.cameraModeInterpolation(0.0) == 0.0 && a.cameraModeInterpolation(1.0) == 1.0
    ensures forall t :: 0.0 <= t <= 1.0 ==> a.cameraModeInterpolation(t) == t
    ensures a.hybridDelayTime > 0.0
  {
    CameraAttributes(
      distance := 5.0,
      distanceUp := 2.25,
      manualMinDistance := 4.0,
      manualMinDistanceUp := 0.0,
      manualMaxDistance := 12.0,
      manualMaxDistanceUp := 10.0,
      cameraModeInterpolation := LinearCurve,
      autoSwitchTime := 5.0,
      hybridDelayTime := 2.0)
  }

  /** The terrain-sensing profile; each pair is (cliff, hill). */
  datatype HeightAttributes = HeightAttributes(
    cliffHillMaskDetection: bv32,     // the layers the probes collide with
    cliffHillDistance: Vec2,          // camera distance targets
    cliffHillHeight: Vec2,            // camera height targets
    maxCliffHillCastDistance: Vec2,   // probe lengths
    cliffHillCastAwayDistance: Vec2   // how far ahead of the target each probe starts
  )

  /** Whether a layer mask lets a cast collide with the given layer. */
  predicate HitsLayer(mask: bv32, layer: bv32)
    requires layer < 32
  {
    mask & (1 << layer) != 0
  }

  /** The built-in IgnoreRaycast layer. */
  const IgnoreRaycastLayer: bv32 := 2

  /** The values a freshly created HeightAttributes asset carries. */
  function DefaultHeightAttributes(): (h: HeightAttributes)
    // layers 0 to 7 except IgnoreRaycast; none of the user layers from 8 on
    ensures forall layer: bv32 :: layer < 32 ==>
      (HitsLayer(h.cliffHillMaskDetection, layer) <==> layer < 8 && layer != IgnoreRaycastLayer)
    ensures h.maxCliffHillCastDistance.x > 0.0 && h.maxCliffHillCastDistance.y > 0.0
    ensures 0.0 < h.cliffHillCastAwayDistance.x < h.cliffHillCastAwayDistance.y
    ensures h.cliffHillDistance.x < h.cliffHillDistance.y
    ensures h.cliffHillHeight.x > h.cliffHillHeight.y
  {
    HeightAttributes(
      cliffHillMaskDetection := 251,
      cliffHillDistance := Vec2(4.0, 170.0),
      cliffHillHeight := Vec2(12.0, 10.0),
      maxCliffHillCastDistance := Vec2(20.0, 100.0),
      cliffHillCastAwayDistance := Vec2(5.0, 8.0))
  }
}
