/**
 * The camera's terrain sensor (HeightModifier): one probe ray ahead of the
 * follow target looks for rising ground (a hill); when it finds nothing a
 * shorter probe looks for the ground falling away (a cliff).  The outcome
 * is a blend ratio and two smoothed offsets the automatic camera uses on
 * the next frame.
 */
module HeightSensing {
  import opened Unity
  import opened Attributes

  /**
   * What the two probes report for one frame.  A hit is the distance from
   * the follow target to the point struck; the min/max distances are the
   * two distances the sensor derives from the probe geometry for the
   * normalisation.  Only the probes the sensor actually fires are read.
   */
  datatype Probe = Probe(
    hillHit: Option<real>,
    hillMinDistance: real,
    hillMaxDistance: real,
    cliffHit: Option<real>,
    cliffMinDistance: real,
    cliffMaxDistance: real
  )

  /** The normalising distances are divisors. */
  predicate ValidProbe(p: Probe) {
    p.hillMaxDistance > 0.0 && p.cliffMaxDistance > 0.0
  }

  /** The normalisation applied to a hit: how far past the near bound the hit lies, per unit of the far bound. */
  function HitRatio(hitDistance: real, minDistance: real, maxDistance: real): (r: real)
    requires maxDistance > 0.0
    ensures 0.0 <= r <= 1.0 <==> minDistance <= hitDistance <= minDistance + maxDistance
    ensures r == 0.0 <==> hitDistance == minDistance
    ensures r * maxDistance == hitDistance - minDistance
  {
    var r := (hitDistance - minDistance) / maxDistance;
    NormalisedBounds(r, maxDistance, hitDistance - minDistance);
    r
  }

  /** True when the hill probe found ground; the hill targets then apply. */
  predicate HillDetected(p: Probe) { p.hillHit.Some? }

  /** The blend ratio the sensor reports for a probe outcome. */
  function SensedRatio(p: Probe): (r: real)
    requires ValidProbe(p)
    ensures p.hillHit.Some? ==> r == HitRatio(p.hillHit.value, p.hillMinDistance, p.hillMaxDistance)
    ensures p.hillHit.None? && p.cliffHit.Some? ==> r == HitRatio(p.cliffHit.value, p.cliffMinDistance, p.cliffMaxDistance)
    // a total miss reports 1, even though the sensor's own range comment calls -1 the cliff end
    ensures p.hillHit.None? && p.cliffHit.None? ==> r == 1.0
  {
    match p.hillHit
    case Some(d) => HitRatio(d, p.hillMinDistance, p.hillMaxDistance)
    case None =>
      match p.cliffHit
      case Some(d) => 1.0 * HitRatio(d, p.cliffMinDistance, p.cliffMaxDistance)
      case None => 1.0
  }

  /** The (height, distance) targets the smoothed offsets move toward: the hill pair (y) or the cliff pair (x). */
  function BumpTargets(h: HeightAttributes, p: Probe): (t: (real, real))
    ensures HillDetected(p) ==> t == (h.cliffHillHeight.y, h.cliffHillDistance.y)
    ensures !HillDetected(p) ==> t == (h.cliffHillHeight.x, h.cliffHillDistance.x)
  {
    if p.hillHit.Some? then (h.cliffHillHeight.y, h.cliffHillDistance.y)
    else (h.cliffHillHeight.x, h.cliffHillDistance.x)
  }

  /** The hit kept for debugging: the hill hit, or else whatever the cliff probe returned. */
  function LastHit(p: Probe): (r: Option<real>)
    ensures r.None? <==> p.hillHit.None? && p.cliffHit.None?
  {
    if p.hillHit.Some? then p.hillHit else p.cliffHit
  }

  class HeightModifier {
    var BumpHeight: real
    var BumpDistance: real
    var bumpHeightSmooth: real
    var bumpDistanceSmooth: real
    var smoothDampTime: real
    var raycastHit: Option<real>
    var cliffHillRatio: real   // the sensor's comment documents -1 cliff, 0 flat, 1 hill

    constructor ()
      ensures BumpHeight == 0.0 && BumpDistance == 0.0
      ensures bumpHeightSmooth == 0.0 && bumpDistanceSmooth == 0.0
      ensures smoothDampTime == 0.4 && cliffHillRatio == 0.0 && raycastHit == None
    {
      BumpHeight, BumpDistance := 0.0, 0.0;
      bumpHeightSmooth, bumpDistanceSmooth := 0.0, 0.0;
      smoothDampTime := 0.4;
      raycastHit := None;
      cliffHillRatio := 0.0;
    }

    /**
     * One frame of sensing: classify the terrain from the probes, then move
     * both offsets one SmoothDamp step toward the matching targets.
     */
    method Calculate(attrs: HeightAttributes, p: Probe, smoothDamp: Damper)
      requires ValidProbe(p)
      modifies this
      ensures cliffHillRatio == SensedRatio(p)
      ensures raycastHit == LastHit(p)
      ensures smoothDampTime == old(smoothDampTime)
      ensures var height := smoothDamp(old(BumpHeight), BumpTargets(attrs, p).0, old(bumpHeightSmooth), smoothDampTime);
        BumpHeight == height.value && bumpHeightSmooth == height.velocity
      ensures var distance := smoothDamp(old(BumpDistance), BumpTargets(attrs, p).1, old(bumpDistanceSmooth), smoothDampTime);
        BumpDistance == distance.value && bumpDistanceSmooth == distance.velocity
    {
      var hill := p.hillHit;
      raycastHit := hill;
      if hill.Some? {
        // there is ground ahead
        cliffHillRatio := (hill.value - p.hillMinDistance) / p.hillMaxDistance;
        var h := smoothDamp(BumpHeight, attrs.cliffHillHeight.y, bumpHeightSmooth, smoothDampTime);
        BumpHeight, bumpHeightSmooth := h.value, h.velocity;
        var d := smoothDamp(BumpDistance, attrs.cliffHillDistance.y, bumpDistanceSmooth, smoothDampTime);
        BumpDistance, bumpDistanceSmooth := d.value, d.velocity;
      } else {
        // the ground falls away
        cliffHillRatio := 1.0;
        var cliff := p.cliffHit;
        raycastHit := cliff;
        if cliff.Some? {
          cliffHillRatio := 1.0 * (cliff.value - p.cliffMinDistance) / p.cliffMaxDistance;
        }
        var h := smoothDamp(BumpHeight, attrs.cliffHillHeight.x, bumpHeightSmooth, smoothDampTime);
        BumpHeight, bumpHeightSmooth := h.value, h.velocity;
        var d := smoothDamp(BumpDistance, attrs.cliffHillDistance.x, bumpDistanceSmooth, smoothDampTime);
        BumpDistance, bumpDistanceSmooth := d.value, d.velocity;
      }
    }
  }
}
