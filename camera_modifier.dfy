/**
 * Point-of-interest zones (CameraModifier): trigger volumes that, while the
 * player is inside, claim the camera's single point-of-interest slot and
 * swap its attribute profiles.  The slot is released on exit only if it
 * still holds this zone's point of interest; the profiles are reset on exit
 * unconditionally, so with overlapping zones the last writer wins and the
 * first exit restores the defaults.
 */
module Zones {
  import opened Unity
  import opened Attributes
  import opened CameraControl

  /**
   * Where the point of interest starts its approach when a zone is
   * entered: whichever of the camera's current and normal points is
   * strictly closer to the point's resting position, ties going to the
   * normal point.
   */
  function ApproachStart(current: Vec3, normal: Vec3, resting: Vec3, distance: (Vec3, Vec3) -> real): (r: Vec3)
    ensures r == current || r == normal
    ensures distance(r, resting) == Min(distance(current, resting), distance(normal, resting))
    ensures distance(current, resting) == distance(normal, resting) ==> r == normal
  {
    if distance(current, resting) < distance(normal, resting) then current else normal
  }

  class CameraModifier {
    const cam: PlatformerCamera
    const pointOfInterest: Transform?
    const timeToChangePointOfInterest: real
    const cameraAttrs: Option<CameraAttributes>
    const heightAttrs: Option<HeightAttributes>
    var triggeredTime: real
    var position: Vec3
    var velocity: Vec3
    var hadAlreadyAPointOfInterest: bool

    /** A zone only hands the camera profiles the camera arithmetic can use. */
    ghost predicate Valid()
      reads this
    {
      cameraAttrs.Some? ==> WellFormed(cameraAttrs.value)
    }

    /** The field initialisers and Start, which looks up the camera. */
    constructor (cam: PlatformerCamera, pointOfInterest: Transform?,
                 cameraAttrs: Option<CameraAttributes>, heightAttrs: Option<HeightAttributes>)
      requires cameraAttrs.Some? ==> WellFormed(cameraAttrs.value)
      ensures Valid()
      ensures this.cam == cam && this.pointOfInterest == pointOfInterest
      ensures this.cameraAttrs == cameraAttrs && this.heightAttrs == heightAttrs
      ensures timeToChangePointOfInterest == 5.0 && velocity == Zero
    {
      this.cam := cam;
      this.pointOfInterest := pointOfInterest;
      this.cameraAttrs := cameraAttrs;
      this.heightAttrs := heightAttrs;
      timeToChangePointOfInterest := 5.0;
      triggeredTime := 0.0;
      position := Zero;
      velocity := Zero;
      hadAlreadyAPointOfInterest := false;
    }

    /**
     * The player enters the zone: remember where the point of interest
     * rests, move it to where the camera is looking, note whether the slot
     * was already taken, and claim it; then install this zone's profiles.
     */
    method OnTriggerEnter(now: real, s: Scene, distance: (Vec3, Vec3) -> real)
      requires Valid() && cam.Valid()
      modifies this`triggeredTime, this`position, this`hadAlreadyAPointOfInterest, pointOfInterest,
               cam`pointOfInterest, cam`attrs, cam`currentHeightAttributes
      ensures cam.Valid()
      ensures pointOfInterest != null ==>
        && triggeredTime == now
        && position == old(pointOfInterest.position)
        && pointOfInterest.position == ApproachStart(old(cam.CurrentPointOfInterest(s)), NormalPointOfInterest(s), position, distance)
        && hadAlreadyAPointOfInterest == (old(cam.pointOfInterest) != null)
        && cam.pointOfInterest == pointOfInterest
      // a zone without a point of interest leaves the slot and its own bookkeeping alone
      ensures pointOfInterest == null ==>
        && cam.pointOfInterest == old(cam.pointOfInterest)
        && triggeredTime == old(triggeredTime) && position == old(position)
        && hadAlreadyAPointOfInterest == old(hadAlreadyAPointOfInterest)
      ensures cam.attrs == if cameraAttrs.Some? then cameraAttrs.value else old(cam.attrs)
      ensures cam.currentHeightAttributes == if heightAttrs.Some? then heightAttrs.value else old(cam.currentHeightAttributes)
    {
      if pointOfInterest != null {
        triggeredTime := now;
        position := pointOfInterest.position;
        var current := cam.CurrentPointOfInterest(s);
        var normal := NormalPointOfInterest(s);
        pointOfInterest.position := if distance(current, position) < distance(normal, position) then current else normal;
        hadAlreadyAPointOfInterest := cam.pointOfInterest != null;
        cam.ReplacePointOfInterest(pointOfInterest);
      }
      if cameraAttrs.Some? {
        cam.SetCameraAttributes(cameraAttrs.value);
      }
      if heightAttrs.Some? {
        cam.SetHeightAttributes(heightAttrs.value);
      }
    }

    /**
     * The player leaves the zone: release the slot if this zone still owns
     * it, put the point of interest back where it rests, and restore the
     * camera's default profiles for each profile this zone had installed.
     */
    method OnTriggerExit()
      requires cam.Valid()
      modifies this`velocity, pointOfInterest, cam`pointOfInterest, cam`attrs, cam`currentHeightAttributes
      ensures cam.Valid()
      ensures pointOfInterest != null ==>
        && cam.pointOfInterest == (if old(cam.pointOfInterest) == pointOfInterest then null else old(cam.pointOfInterest))
        && pointOfInterest.position == position
        && velocity == Zero
      ensures pointOfInterest == null ==> cam.pointOfInterest == old(cam.pointOfInterest) && velocity == old(velocity)
      ensures cam.attrs == if cameraAttrs.Some? then cam.defaultAttrs else old(cam.attrs)
      ensures cam.currentHeightAttributes == if heightAttrs.Some? then cam.defaultHeightAttributes else old(cam.currentHeightAttributes)
    {
      if pointOfInterest != null {
        if cam.pointOfInterest == pointOfInterest {
          cam.ReplacePointOfInterest(null);
        }
        pointOfInterest.position := position;
        velocity := Zero;
      }
      if cameraAttrs.Some? {
        cam.ResetCameraAttributes();
      }
      if heightAttrs.Some? {
        cam.ResetHeightAttributes();
      }
    }
  }

  /**
   * Two overlapping zones on one camera, entered in the order a, b, and a
   * left first: b's claim survives a's exit, while a's exit has already
   * reset the camera profile b installed.
   */
  method ExitAfterLaterClaim(a: CameraModifier, b: CameraModifier, now: real, s: Scene, distance: (Vec3, Vec3) -> real)
    requires a != b && a.cam == b.cam
    requires a.Valid() && b.Valid() && a.cam.Valid()
    requires a.pointOfInterest != null && b.pointOfInterest != null && a.pointOfInterest != b.pointOfInterest
    requires a.cameraAttrs.Some? && b.cameraAttrs.Some?
    modifies a, b, a.cam, a.pointOfInterest, b.pointOfInterest
    ensures a.cam.pointOfInterest == b.pointOfInterest
    ensures b.hadAlreadyAPointOfInterest
    ensures a.cam.attrs == a.cam.defaultAttrs
  {
    a.OnTriggerEnter(now, s, distance);
    b.OnTriggerEnter(now, s, distance);
    a.OnTriggerExit();
  }

  /**
   * The exit decision ignores the "had priority" snapshot: a zone entered
   * while another held the slot still clears the slot on exit once it is
   * the holder again.
   */
  method ExitIgnoresPriority(a: CameraModifier, b: CameraModifier, now: real, s: Scene, distance: (Vec3, Vec3) -> real)
    requires a != b && a.cam == b.cam
    requires a.Valid() && b.Valid() && a.cam.Valid()
    requires a.pointOfInterest != null && b.pointOfInterest != null && a.pointOfInterest != b.pointOfInterest
    modifies a, b, a.cam, a.pointOfInterest, b.pointOfInterest
    ensures a.hadAlreadyAPointOfInterest
    ensures a.cam.pointOfInterest == null
  {
    b.OnTriggerEnter(now, s, distance);
    a.OnTriggerEnter(now, s, distance);
    b.OnTriggerExit();
    a.OnTriggerExit();
  }
}
