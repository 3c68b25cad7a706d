/**
 * The `SaturnRings` component: a flat ring mesh that repeats Saturn's orbit on its
 * own group and keeps Saturn's tilt, without spinning.
 */
module SaturnRings {
  import opened Common
  import Planets

  class Rings {
    const math: MathLib
    const orbitRadius: real
    const orbitSpeed: real
    const initialAngle: real
    const tilt: real

    /** The `angle` ref. */
    var angle: real
    /** `ringsGroupRef.current.position`. */
    var groupPosition: Vec3
    /** `ringsRef.current.rotation`; the mesh is created with rotation `[tilt, 0, 0]`. */
    var rotation: Vec3
    /** Frames on which both refs were mounted. */
    ghost var frames: nat

    ghost predicate Valid()
      reads this
    {
      && angle == initialAngle + Accumulated(frames, orbitSpeed)
      && groupPosition == (if frames == 0 then Origin else PlaceOnCircle(math, Origin, angle, orbitRadius))
      && rotation == Vec3(tilt, 0.0, 0.0)
    }

    constructor (math: MathLib, orbitRadius: real, orbitSpeed: real, initialAngle: real, tilt: real)
      ensures Valid() && frames == 0
      ensures this.math == math && this.orbitRadius == orbitRadius && this.orbitSpeed == orbitSpeed
      ensures this.initialAngle == initialAngle && this.tilt == tilt
      ensures angle == initialAngle && groupPosition == Origin && rotation == Vec3(tilt, 0.0, 0.0)
    {
      this.math := math;
      this.orbitRadius := orbitRadius;
      this.orbitSpeed := orbitSpeed;
      this.initialAngle := initialAngle;
      this.tilt := tilt;
      angle := initialAngle;
      groupPosition := Origin;
      rotation := Vec3(tilt, 0.0, 0.0);
      frames := 0;
    }

    /**
     * One `useFrame` callback: when both refs are mounted, advance the phase, move
     * the group onto the orbit circle and set the tilt again.
     */
    method Frame(groupMounted: bool, ringsMounted: bool)
      requires Valid()
      modifies this
      ensures Valid()
      ensures !(groupMounted && ringsMounted) ==> unchanged(this)
      ensures groupMounted && ringsMounted ==>
        && frames == old(frames) + 1
        && angle == old(angle) + orbitSpeed
        && groupPosition == PlaceOnCircle(math, old(groupPosition), angle, orbitRadius)
      ensures rotation == old(rotation)
    {
      if groupMounted && ringsMounted {
        angle := angle + orbitSpeed;
        groupPosition := MoveOnCircle(math, groupPosition, angle, orbitRadius);
        rotation := rotation.(x := tilt);
        frames := frames + 1;
      }
    }
  }

  /**
   * Rings created with Saturn's orbit parameters stay around Saturn: after the same
   * number of frames their group sits where Saturn's mesh is, and their tilt is
   * Saturn's axial tilt once Saturn has been tilted.
   */
  lemma RingsFollowSaturn(rings: Rings, saturn: Planets.Planet)
    requires rings.Valid() && saturn.Valid()
    requires saturn.parent.None? && saturn.start == Origin
    requires rings.math == saturn.math && rings.orbitRadius == saturn.orbitRadius
    requires rings.orbitSpeed == saturn.orbitSpeed && rings.initialAngle == saturn.initialAngle
    requires rings.tilt == saturn.tilt
    requires rings.frames == saturn.frames
    ensures rings.groupPosition == saturn.groupPosition.Plus(saturn.localPosition)
    ensures saturn.frames > 0 ==> rings.rotation.x == saturn.rotationX
  {
  }
}
