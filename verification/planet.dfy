/**
 * The `Planet` component: a body on a circular orbit in the xz plane, spinning about
 * its tilted axis. A moon additionally re-derives its parent's circular orbit and
 * moves its whole group there every frame.
 */
module Planets {
  import opened Common

  /** Number of segments of the drawn orbit ring (129 points). */
  const OrbitSegments: nat := 128

  /** The `parentPlanet` prop of a moon: the parent's orbit parameters. */
  datatype ParentOrbit = ParentOrbit(orbitRadius: real, orbitSpeed: real, initialAngle: real)

  /** `parentPlanet?.initialAngle || 0`. */
  function ParentStartAngle(parent: Option<ParentOrbit>): real {
    match parent
    case None => 0.0
    case Some(p) => p.initialAngle
  }

  /** How far `parentAngle` has advanced after `n` mounted frames. */
  function ParentAdvance(parent: Option<ParentOrbit>, n: nat): real {
    match parent
    case None => 0.0
    case Some(p) => Accumulated(n, p.orbitSpeed)
  }

  /** The phase of the i-th ring point, `(i / 128) * PI * 2`. */
  function RingAngle(i: nat): real {
    (i as real / OrbitSegments as real) * PI * 2.0
  }

  class Planet {
    const math: MathLib
    const orbitRadius: real
    const orbitSpeed: real
    const rotationSpeed: real
    const initialAngle: real
    const tilt: real
    const parent: Option<ParentOrbit>
    /** The `position` prop the planet mesh starts at. */
    const start: Vec3

    /** The `angle` ref. */
    var angle: real
    /** The `parentAngle` ref. */
    var parentAngle: real
    /** `planetGroupRef.current.position`. */
    var groupPosition: Vec3
    /** `planetRef.current.position`, relative to the group. */
    var localPosition: Vec3
    /** `planetRef.current.rotation.x` and `.y`. */
    var rotationX: real
    var rotationY: real
    /** Frames on which both refs were mounted. */
    ghost var frames: nat

    ghost predicate Valid()
      reads this
    {
      && angle == initialAngle + Accumulated(frames, orbitSpeed)
      && parentAngle == ParentStartAngle(parent) + ParentAdvance(parent, frames)
      && rotationY == Accumulated(frames, rotationSpeed)
      && rotationX == (if frames == 0 then 0.0 else tilt)
      && localPosition == (if frames == 0 then start else PlaceOnCircle(math, start, angle, orbitRadius))
      && groupPosition
         == (if frames == 0 || parent.None? then Origin
             else PlaceOnCircle(math, Origin, parentAngle, parent.value.orbitRadius))
    }

    constructor (math: MathLib, orbitRadius: real, orbitSpeed: real, rotationSpeed: real,
                 initialAngle: real, tilt: real, parent: Option<ParentOrbit>, start: Vec3)
      ensures Valid() && frames == 0
      ensures this.math == math && this.orbitRadius == orbitRadius && this.orbitSpeed == orbitSpeed
      ensures this.rotationSpeed == rotationSpeed && this.initialAngle == initialAngle
      ensures this.tilt == tilt && this.parent == parent && this.start == start
      ensures angle == initialAngle && parentAngle == ParentStartAngle(parent)
      ensures groupPosition == Origin && localPosition == start
      ensures rotationX == 0.0 && rotationY == 0.0
    {
      this.math := math;
      this.orbitRadius := orbitRadius;
      this.orbitSpeed := orbitSpeed;
      this.rotationSpeed := rotationSpeed;
      this.initialAngle := initialAngle;
      this.tilt := tilt;
      this.parent := parent;
      this.start := start;
      angle := initialAngle;
      parentAngle := ParentStartAngle(parent);
      groupPosition := Origin;
      localPosition := start;
      rotationX := 0.0;
      rotationY := 0.0;
      frames := 0;
    }

    /**
     * One `useFrame` callback. Nothing happens unless the group and the mesh are
     * mounted. A moon first moves its group onto the parent's circle; every body
     * then advances its phase, moves on its own circle, resets its tilt and spins.
     */
    method Frame(groupMounted: bool, planetMounted: bool)
      requires Valid()
      modifies this
      ensures Valid()
      ensures !(groupMounted && planetMounted) ==> unchanged(this)
      ensures groupMounted && planetMounted ==>
        && frames == old(frames) + 1
        && angle == old(angle) + orbitSpeed
        && localPosition == PlaceOnCircle(math, old(localPosition), angle, orbitRadius)
        && rotationX == tilt
        && rotationY == old(rotationY) + rotationSpeed
      ensures groupMounted && planetMounted && parent.Some? ==>
        && parentAngle == old(parentAngle) + parent.value.orbitSpeed
        && groupPosition == PlaceOnCircle(math, old(groupPosition), parentAngle, parent.value.orbitRadius)
      ensures parent.None? ==> parentAngle == old(parentAngle) && groupPosition == old(groupPosition)
      ensures groupMounted && planetMounted && orbitRadius == 0.0 ==>
        localPosition == Vec3(0.0, start.y, 0.0)
    {
      if groupMounted && planetMounted {
        if parent.Some? {
          parentAngle := parentAngle + parent.value.orbitSpeed;
          groupPosition := MoveOnCircle(math, groupPosition, parentAngle, parent.value.orbitRadius);
        }
        angle := angle + orbitSpeed;
        localPosition := MoveOnCircle(math, localPosition, angle, orbitRadius);
        rotationX := tilt;
        rotationY := rotationY + rotationSpeed;
        frames := frames + 1;
      }
    }

    /** The 129 points of the drawn orbit ring: on the circle of `orbitRadius` in the y = 0 plane. */
    method OrbitRing() returns (points: seq<Vec3>)
      ensures |points| == OrbitSegments + 1
      ensures forall i :: 0 <= i < |points| ==> points[i] == PlaceOnCircle(math, Origin, RingAngle(i), orbitRadius)
    {
      points := [];
      for i := 0 to OrbitSegments + 1
        invariant |points| == i
        invariant forall j :: 0 <= j < i ==> points[j] == PlaceOnCircle(math, Origin, RingAngle(j), orbitRadius)
      {
        var theta := (i as real / OrbitSegments as real) * PI * 2.0;
        points := points + [Vec3(math.cos(theta) * orbitRadius, 0.0, math.sin(theta) * orbitRadius)];
      }
    }
  }

  /**
   * A moon's group sits on its parent's circle: at distance `parent.orbitRadius`
   * from the y axis, in the y = 0 plane.
   */
  lemma MoonGroupOnParentCircle(moon: Planet)
    requires moon.Valid() && moon.math.Lawful() && moon.parent.Some? && moon.frames > 0
    ensures moon.groupPosition.y == 0.0
    ensures moon.groupPosition.x * moon.groupPosition.x + moon.groupPosition.z * moon.groupPosition.z
         == moon.parent.value.orbitRadius * moon.parent.value.orbitRadius
    ensures moon.parentAngle
         == moon.parent.value.initialAngle + moon.frames as real * moon.parent.value.orbitSpeed
  {
    PlaceOnCircleDistance(moon.math, Origin, moon.parentAngle, moon.parent.value.orbitRadius);
    AccumulatedIsProduct(moon.frames, moon.parent.value.orbitSpeed);
  }

  /** After `n` mounted frames the phase is `initialAngle + n * orbitSpeed`, whatever the frame timing. */
  lemma PhaseAfterFrames(p: Planet)
    requires p.Valid()
    ensures p.angle == p.initialAngle + p.frames as real * p.orbitSpeed
    ensures p.rotationY == p.frames as real * p.rotationSpeed
  {
    AccumulatedIsProduct(p.frames, p.orbitSpeed);
    AccumulatedIsProduct(p.frames, p.rotationSpeed);
  }

  /** A planet without a parent keeps its group at the origin forever. */
  lemma TopLevelGroupFixed(p: Planet)
    requires p.Valid() && p.parent.None?
    ensures p.groupPosition == Origin && p.parentAngle == 0.0
  {
  }
}
