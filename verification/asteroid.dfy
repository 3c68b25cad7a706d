/**
 * The `Asteroid` component: a small body on an inclined circular orbit whose phase
 * and spin advance by the frame's elapsed time `delta`, drawn either as a sphere or
 * as an icosahedron whose vertices were pushed outwards by random amounts.
 */
module Asteroids {
  import opened Common

  // ---------------------------------------------------------------------------
  // Default props
  // ---------------------------------------------------------------------------

  /** `initialAngle = Math.random() * Math.PI * 2`. */
  function DefaultInitialAngle(u: Unit): real {
    u * PI * 2.0
  }

  /** `inclination = Math.random() * 0.4`. */
  function DefaultInclination(u: Unit): real {
    u * 0.4
  }

  /**
   * The `initialAngle` and `inclination` a component instance ends up with. A prop
   * that is supplied is kept; a missing one takes its default, and the defaults draw
   * from `Math.random()` in parameter order, so the inclination uses the first draw
   * when the angle was supplied and the second one otherwise.
   */
  function ResolveOrbitProps(initialAngle: Option<real>, inclination: Option<real>, rand: Random): (r: (real, real))
    ensures initialAngle.Some? ==> r.0 == initialAngle.value
    ensures inclination.Some? ==> r.1 == inclination.value
    ensures initialAngle.None? ==> 0.0 <= r.0 < 2.0 * PI
    ensures inclination.None? ==> 0.0 <= r.1 < 0.4
  {
    var angle := match initialAngle
      case Some(a) => a
      case None => DefaultInitialAngle(rand(0));
    var next: nat := if initialAngle.None? then 1 else 0;
    var incl := match inclination
      case Some(i) => i
      case None => DefaultInclination(rand(next));
    DefaultsInRange(rand(0));
    DefaultsInRange(rand(next));
    (angle, incl)
  }

  lemma DefaultsInRange(u: Unit)
    ensures 0.0 <= DefaultInitialAngle(u) < 2.0 * PI
    ensures 0.0 <= DefaultInclination(u) < 0.4
  {
    MulMono(PI * 2.0, 0.0, u);
    assert u * PI * 2.0 == (PI * 2.0) * u;
    assert (PI * 2.0) * 1.0 - (PI * 2.0) * u == (PI * 2.0) * (1.0 - u);
    MulPos(PI * 2.0, 1.0 - u);
  }

  // ---------------------------------------------------------------------------
  // Orbit
  // ---------------------------------------------------------------------------

  /**
   * The group position for phase `angle`: x and z on the circle of radius
   * `orbitRadius`, and a height equal to z times `sin(inclination)`.
   */
  function AsteroidPosition(m: MathLib, angle: real, orbitRadius: real, inclination: real): Vec3 {
    Vec3(m.cos(angle) * orbitRadius,
         m.sin(angle) * orbitRadius * m.sin(inclination),
         m.sin(angle) * orbitRadius)
  }

  /**
   * The orbit is the circle of radius `orbitRadius` in the xz plane, lifted by
   * `z sin(inclination)`: the distance from the y axis is the radius, the height is
   * proportional to z, and the distance from the sun is between the radius and
   * `sqrt 2` times it.
   */
  lemma AsteroidPositionShape(m: MathLib, angle: real, orbitRadius: real, inclination: real)
    requires m.Lawful()
    ensures AsteroidPosition(m, angle, orbitRadius, inclination).y
         == AsteroidPosition(m, angle, orbitRadius, inclination).z * m.sin(inclination)
    ensures AsteroidPosition(m, angle, orbitRadius, inclination).x * AsteroidPosition(m, angle, orbitRadius, inclination).x
          + AsteroidPosition(m, angle, orbitRadius, inclination).z * AsteroidPosition(m, angle, orbitRadius, inclination).z
         == orbitRadius * orbitRadius
    ensures orbitRadius * orbitRadius <= AsteroidPosition(m, angle, orbitRadius, inclination).Norm2()
                                      <= 2.0 * (orbitRadius * orbitRadius)
  {
    var p := AsteroidPosition(m, angle, orbitRadius, inclination);
    PlaceOnCircleDistance(m, Origin, angle, orbitRadius);
    assert p.x == PlaceOnCircle(m, Origin, angle, orbitRadius).x;
    assert p.z == PlaceOnCircle(m, Origin, angle, orbitRadius).z;
    HeightBelowRadius(m, p.y, p.z, inclination);
    SquareNonNegative(p.x);
    HeightBound(p.x * p.x, p.y * p.y, p.z * p.z, orbitRadius * orbitRadius);
  }

  /** Multiplying by `sin(inclination)` does not increase a square. */
  lemma HeightBelowRadius(m: MathLib, y: real, z: real, inclination: real)
    requires m.Lawful() && y == z * m.sin(inclination)
    ensures 0.0 <= y * y <= z * z
  {
    var si, co := m.sin(inclination), m.cos(inclination);
    SquareNonNegative(co);
    SquareNonNegative(z);
    var ss := si * si;
    var zz := z * z;
    assert ss <= 1.0 && ss >= 0.0 by { assert ss + co * co == 1.0; SquareNonNegative(si); }
    ScaleBetween(zz, ss);
    assert y * y == zz * ss;
  }

  lemma SquareNonNegative(x: real)
    ensures x * x >= 0.0
  {
    if x != 0.0 { SquarePositive(x); }
  }

  /** With `x^2 + z^2 = r2` and `0 <= y^2 <= z^2`, the squared length is in [r2, 2 r2]. */
  lemma HeightBound(xx: real, yy: real, zz: real, r2: real)
    requires xx >= 0.0 && 0.0 <= yy <= zz && xx + zz == r2
    ensures r2 <= xx + yy + zz <= 2.0 * r2
  {
  }

  /**
   * The per-frame phase and spin increments: `rate * delta` summed over the deltas
   * of the mounted frames so far.
   */
  function ScaledSum(deltas: seq<real>, rate: real): real {
    if |deltas| == 0 then 0.0 else ScaledSum(deltas[..|deltas| - 1], rate) + rate * deltas[|deltas| - 1]
  }

  /** The total time that has elapsed over the mounted frames. */
  function Elapsed(deltas: seq<real>): real {
    if |deltas| == 0 then 0.0 else Elapsed(deltas[..|deltas| - 1]) + deltas[|deltas| - 1]
  }

  /** Summing `rate * delta` frame by frame gives `rate` times the total elapsed time. */
  lemma {:induction false} ScaledSumIsProduct(deltas: seq<real>, rate: real)
    ensures ScaledSum(deltas, rate) == rate * Elapsed(deltas)
  {
    if |deltas| > 0 {
      var init := deltas[..|deltas| - 1];
      ScaledSumIsProduct(init, rate);
      assert rate * Elapsed(deltas) == rate * Elapsed(init) + rate * deltas[|deltas| - 1];
    }
  }

  /**
   * The position block of a frame: the group lands on the circle of `orbitRadius`
   * about the y axis, lifted by `z sin(inclination)`, at a distance from the sun
   * between the radius and `sqrt 2` times it.
   */
  method ComputePosition(m: MathLib, angle: real, orbitRadius: real, inclination: real) returns (p: Vec3)
    ensures p == AsteroidPosition(m, angle, orbitRadius, inclination)
    ensures m.Lawful() ==> p.x * p.x + p.z * p.z == orbitRadius * orbitRadius
    ensures m.Lawful() ==> p.y == p.z * m.sin(inclination)
    ensures m.Lawful() ==> orbitRadius * orbitRadius <= p.Norm2() <= 2.0 * (orbitRadius * orbitRadius)
  {
    var x := m.cos(angle) * orbitRadius;
    var z := m.sin(angle) * orbitRadius;
    var y := m.sin(angle) * orbitRadius * m.sin(inclination);
    p := Vec3(x, y, z);
    if m.Lawful() {
      AsteroidPositionShape(m, angle, orbitRadius, inclination);
    }
  }

  class Asteroid {
    const math: MathLib
    const orbitRadius: real
    const orbitSpeed: real
    const rotationSpeed: real
    const initialAngle: real
    const inclination: real

    /** `angleRef.current`. */
    var angle: real
    /** `groupRef.current.position`. */
    var position: Vec3
    /** `asteroidRef.current.rotation`. */
    var rotation: Vec3
    /** The `delta` of every frame on which both refs were mounted, oldest first. */
    ghost var deltas: seq<real>

    ghost predicate Valid()
      reads this
    {
      && angle == initialAngle + ScaledSum(deltas, orbitSpeed)
      && position == (if |deltas| == 0 then Origin else AsteroidPosition(math, angle, orbitRadius, inclination))
      && rotation == Vec3(ScaledSum(deltas, rotationSpeed),
                          ScaledSum(deltas, rotationSpeed * 0.7),
                          ScaledSum(deltas, rotationSpeed * 0.5))
    }

    constructor (math: MathLib, orbitRadius: real, orbitSpeed: real, rotationSpeed: real,
                 initialAngle: real, inclination: real)
      ensures Valid() && deltas == []
      ensures this.math == math && this.orbitRadius == orbitRadius && this.orbitSpeed == orbitSpeed
      ensures this.rotationSpeed == rotationSpeed && this.initialAngle == initialAngle
      ensures this.inclination == inclination
      ensures angle == initialAngle && position == Origin && rotation == Origin
    {
      this.math := math;
      this.orbitRadius := orbitRadius;
      this.orbitSpeed := orbitSpeed;
      this.rotationSpeed := rotationSpeed;
      this.initialAngle := initialAngle;
      this.inclination := inclination;
      angle := initialAngle;
      position := Origin;
      rotation := Origin;
      deltas := [];
    }

    /**
     * One `useFrame` callback with the elapsed time `delta`: when both refs are
     * mounted, advance the phase by `orbitSpeed * delta`, set the group position for
     * the new phase and turn the mesh about x, y and z by `rotationSpeed * delta`
     * times 1, 0.7 and 0.5.
     */
    method Frame(delta: real, asteroidMounted: bool, groupMounted: bool)
      requires Valid()
      modifies this
      ensures Valid()
      ensures !(asteroidMounted && groupMounted) ==> unchanged(this)
      ensures asteroidMounted && groupMounted ==>
        && deltas == old(deltas) + [delta]
        && angle == old(angle) + orbitSpeed * delta
        && position == AsteroidPosition(math, angle, orbitRadius, inclination)
        && rotation == Vec3(old(rotation.x) + rotationSpeed * delta,
                            old(rotation.y) + rotationSpeed * 0.7 * delta,
                            old(rotation.z) + rotationSpeed * 0.5 * delta)
    {
      if asteroidMounted && groupMounted {
        angle := angle + orbitSpeed * delta;
        position := ComputePosition(math, angle, orbitRadius, inclination);
        rotation := Vec3(rotation.x + rotationSpeed * delta,
                         rotation.y + rotationSpeed * 0.7 * delta,
                         rotation.z + rotationSpeed * 0.5 * delta);
        deltas := deltas + [delta];
        assert deltas[..|deltas| - 1] == old(deltas);
      }
    }
  }

  /**
   * Whatever the frame timing, the phase is `initialAngle + orbitSpeed * t` and the
   * spin about y and z is 0.7 and 0.5 times the spin about x, `t` being the time
   * elapsed over the mounted frames.
   */
  lemma PhaseAndSpin(a: Asteroid)
    requires a.Valid()
    ensures a.angle == a.initialAngle + a.orbitSpeed * Elapsed(a.deltas)
    ensures a.rotation.x == a.rotationSpeed * Elapsed(a.deltas)
    ensures a.rotation.y == a.rotation.x * 0.7
    ensures a.rotation.z == a.rotation.x * 0.5
  {
    var t := Elapsed(a.deltas);
    ScaledSumIsProduct(a.deltas, a.orbitSpeed);
    ScaledSumIsProduct(a.deltas, a.rotationSpeed);
    ScaledSumIsProduct(a.deltas, a.rotationSpeed * 0.7);
    ScaledSumIsProduct(a.deltas, a.rotationSpeed * 0.5);
    assert a.rotationSpeed * 0.7 * t == a.rotationSpeed * t * 0.7;
    assert a.rotationSpeed * 0.5 * t == a.rotationSpeed * t * 0.5;
  }

  // ---------------------------------------------------------------------------
  // Irregular shape
  // ---------------------------------------------------------------------------

  /** `1 + (0.2 + Math.random() * 0.3)`: the factor one vertex is scaled by. */
  function DistortionFactor(u: Unit): (f: real)
    ensures 1.2 <= f < 1.5
  {
    1.0 + (0.2 + u * 0.3)
  }

  /**
   * The vertex buffer after the distortion loop: vertex `i` (slots `3i`, `3i+1`,
   * `3i+2`) scaled by the factor of draw `i`; a trailing partial vertex, if any, kept.
   */
  function Distorted(before: seq<real>, rand: Random): (after: seq<real>)
    ensures |after| == |before|
  {
    seq(|before|, k requires 0 <= k < |before| =>
      if k < 3 * (|before| / 3) then before[k] * DistortionFactor(rand(k / 3)) else before[k])
  }

  /** Vertex `i` of a flat xyz buffer. */
  function Vertex(buffer: seq<real>, i: nat): Vec3
    requires 3 * i + 2 < |buffer|
  {
    Vec3(buffer[3 * i], buffer[3 * i + 1], buffer[3 * i + 2])
  }

  /**
   * Each vertex of the distorted buffer is the original vertex scaled by a factor
   * in [1.2, 1.5), so it moves straight away from the centre and its distance from
   * the centre grows by that factor.
   */
  lemma DistortionScalesVertex(m: MathLib, before: seq<real>, rand: Random, i: nat)
    requires m.Lawful()
    requires 3 * i + 2 < |before|
    ensures Vertex(Distorted(before, rand), i) == Vertex(before, i).Times(DistortionFactor(rand(i)))
    ensures m.sqrt(Vertex(Distorted(before, rand), i).Norm2())
         == DistortionFactor(rand(i)) * m.sqrt(Vertex(before, i).Norm2())
  {
    DistortedVertexSlots(before, rand, i);
    var v := Vertex(before, i);
    var f := DistortionFactor(rand(i));
    assert Vertex(Distorted(before, rand), i) == v.Times(f);
    LengthScaled(m, v, f);
  }

  /** Scaling a vector by a non-negative factor scales its length by that factor. */
  lemma LengthScaled(m: MathLib, v: Vec3, f: real)
    requires m.Lawful() && f >= 0.0
    ensures m.sqrt(v.Times(f).Norm2()) == f * m.sqrt(v.Norm2())
  {
    Norm2Scaled(v, f);
    SqrtScaled(m, v.Norm2(), f);
  }

  /** The three slots of vertex `i` are scaled by the factor of draw `i`. */
  lemma DistortedVertexSlots(before: seq<real>, rand: Random, i: nat)
    requires 3 * i + 2 < |before|
    ensures Distorted(before, rand)[3 * i] == before[3 * i] * DistortionFactor(rand(i))
    ensures Distorted(before, rand)[3 * i + 1] == before[3 * i + 1] * DistortionFactor(rand(i))
    ensures Distorted(before, rand)[3 * i + 2] == before[3 * i + 2] * DistortionFactor(rand(i))
  {
    var n := |before| / 3;
    assert |before| == 3 * n + |before| % 3;
    assert i < n;
    assert (3 * i) / 3 == i && (3 * i + 1) / 3 == i && (3 * i + 2) / 3 == i;
  }

  /** `sqrt(f^2 n) = f sqrt(n)` for non-negative `f` and `n`. */
  lemma SqrtScaled(m: MathLib, n: real, f: real)
    requires m.Lawful() && n >= 0.0 && f >= 0.0
    ensures m.sqrt(f * f * n) == f * m.sqrt(n)
  {
    var s := m.sqrt(n);
    assert s >= 0.0 && s * s == n;
    MulMono(f, 0.0, s);
    assert (f * s) * (f * s) == f * f * n;
    SqrtNonNegative(m, f * f * n);
    SquareInjective(m.sqrt(f * f * n), f * s);
  }

  lemma SqrtNonNegative(m: MathLib, x: real)
    requires m.Lawful() && x >= 0.0
    ensures m.sqrt(x) >= 0.0 && m.sqrt(x) * m.sqrt(x) == x
  {
  }

  /**
   * The distortion loop of the irregular-shape geometry: every vertex of the
   * icosahedron's position buffer is visited once and scaled in place by its factor.
   */
  method Distort(positions: array<real>, rand: Random)
    modifies positions
    ensures positions[..] == Distorted(old(positions[..]), rand)
  {
    ghost var before := positions[..];
    var i := 0;
    while i < positions.Length / 3
      invariant 0 <= i <= positions.Length / 3
      invariant forall k :: 0 <= k < 3 * i ==> positions[k] == before[k] * DistortionFactor(rand(k / 3))
      invariant forall k :: 3 * i <= k < positions.Length ==> positions[k] == before[k]
    {
      ScaleVertex(positions, i, rand);
      assert (3 * i) / 3 == i && (3 * i + 1) / 3 == i && (3 * i + 2) / 3 == i;
      i := i + 1;
    }
    assert forall k :: 0 <= k < positions.Length ==> positions[k] == Distorted(before, rand)[k];
  }

  /** One iteration: read vertex `i`, multiply it by `1 + distortion`, write it back. */
  method ScaleVertex(positions: array<real>, i: nat, rand: Random)
    requires 3 * i + 2 < positions.Length
    modifies positions
    ensures forall k :: 0 <= k < positions.Length && k != 3 * i && k != 3 * i + 1 && k != 3 * i + 2 ==>
      positions[k] == old(positions[k])
    ensures positions[3 * i] == old(positions[3 * i]) * DistortionFactor(rand(i))
    ensures positions[3 * i + 1] == old(positions[3 * i + 1]) * DistortionFactor(rand(i))
    ensures positions[3 * i + 2] == old(positions[3 * i + 2]) * DistortionFactor(rand(i))
  {
    var i3 := 3 * i;
    var vx, vy, vz := positions[i3], positions[i3 + 1], positions[i3 + 2];
    var distortion := 0.2 + rand(i) * 0.3;
    vx, vy, vz := vx * (1.0 + distortion), vy * (1.0 + distortion), vz * (1.0 + distortion);
    positions[i3], positions[i3 + 1], positions[i3 + 2] := vx, vy, vz;
  }
}
