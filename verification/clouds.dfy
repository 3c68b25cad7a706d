/**
 * The `EarthClouds` component: a translucent sphere that repeats Earth's orbit on
 * its own group and spins about its tilted axis slightly faster than Earth.
 */
module EarthClouds {
  import opened Common
  import Planets

  class Clouds {
    const math: MathLib
    const orbitRadius: real
    const orbitSpeed: real
    const rotationSpeed: real
    const initialAngle: real
    const tilt: real

    /** The `angle` ref. */
    var angle: real
    /** `cloudsGroupRef.current.position`. */
    var groupPosition: Vec3
    /** `cloudsRef.current.rotation.x` and `.y`; the mesh is created with rotation `[tilt, 0, 0]`. */
    var rotationX: real
    var rotationY: real
    /** Frames on which both refs were mounted. */
    ghost var frames: nat

    ghost predicate Valid()
      reads this
    {
      && angle == initialAngle + Accumulated(frames, orbitSpeed)
      && groupPosition == (if frames == 0 then Origin else PlaceOnCircle(math, Origin, angle, orbitRadius))
      && rotationX == tilt
      && rotationY == Accumulated(frames, rotationSpeed)
    }

    constructor (math: MathLib, orbitRadius: real, orbitSpeed: real, rotationSpeed: real,
                 initialAngle: real, tilt: real)
      ensures Valid() && frames == 0
      ensures this.math == math && this.orbitRadius == orbitRadius && this.orbitSpeed == orbitSpeed
      ensures this.rotationSpeed == rotationSpeed && this.initialAngle == initialAngle && this.tilt == tilt
      ensures angle == initialAngle && groupPosition == Origin
      ensures rotationX == tilt && rotationY == 0.0
    {
      this.math := math;
      this.orbitRadius := orbitRadius;
      this.orbitSpeed := orbitSpeed;
      this.rotationSpeed := rotationSpeed;
      this.initialAngle := initialAngle;
      this.tilt := tilt;
      angle := initialAngle;
      groupPosition := Origin;
      rotationX := tilt;
      rotationY := 0.0;
      frames := 0;
    }

    /**
     * One `useFrame` callback: when both refs are mounted, advance the phase, move
     * the group onto the orbit circle, keep the tilt and spin.
     */
    method Frame(groupMounted: bool, cloudsMounted: bool)
      requires Valid()
      modifies this
      ensures Valid()
      ensures !(groupMounted && cloudsMounted) ==> unchanged(this)
      ensures groupMounted && cloudsMounted ==>
        && frames == old(frames) + 1
        && angle == old(angle) + orbitSpeed
        && groupPosition == PlaceOnCircle(math, old(groupPosition), angle, orbitRadius)
        && rotationX == tilt
        && rotationY == old(rotationY) + rotationSpeed
    {
      if groupMounted && cloudsMounted {
        angle := angle + orbitSpeed;
        groupPosition := MoveOnCircle(math, groupPosition, angle, orbitRadius);
        rotationX := tilt;
        rotationY := rotationY + rotationSpeed;
        frames := frames + 1;
      }
    }
  }

  /**
   * Clouds created with Earth's orbit parameters stay on Earth: after the same
   * number of frames their group sits exactly where Earth's mesh is, and their tilt
   * matches Earth's once Earth has been tilted.
   */
  lemma CloudsFollowEarth(clouds: Clouds, earth: Planets.Planet)
    requires clouds.Valid() && earth.Valid()
    requires earth.parent.None? && earth.start == Origin
    requires clouds.math == earth.math && clouds.orbitRadius == earth.orbitRadius
    requires clouds.orbitSpeed == earth.orbitSpeed && clouds.initialAngle == earth.initialAngle
    requires clouds.tilt == earth.tilt
    requires clouds.frames == earth.frames
    ensures clouds.groupPosition == earth.groupPosition.Plus(earth.localPosition)
    ensures clouds.angle == earth.angle
    ensures earth.frames > 0 ==> clouds.rotationX == earth.rotationX
  {
  }

  /**
   * With `rotationSpeed` 1.2 times Earth's, the clouds have always turned 1.2 times
   * as far as Earth about their axes.
   */
  lemma CloudsSpinFaster(clouds: Clouds, earth: Planets.Planet)
    requires clouds.Valid() && earth.Valid()
    requires clouds.rotationSpeed == earth.rotationSpeed * 1.2
    requires clouds.frames == earth.frames
    ensures clouds.rotationY == earth.rotationY * 1.2
  {
    AccumulatedIsProduct(clouds.frames, clouds.rotationSpeed);
    AccumulatedIsProduct(earth.frames, earth.rotationSpeed);
  }
}
