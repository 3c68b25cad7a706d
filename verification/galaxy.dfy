/**
 * The `GalaxySimulation` component: a two-armed spiral disk of points whose
 * position and colour buffers are generated index by index, and which turns about
 * its y axis a little every frame.
 */
module Galaxy {
  import opened Common

  /** The number of spiral arms. */
  const ArmCount: nat := 2

  /** `new THREE.Color('#ffffaa')` and `new THREE.Color('#4444ff')`, channel by channel. */
  const CenterColor: Rgb := Rgb(1.0, 1.0, 170.0 / 255.0)
  const EdgeColor: Rgb := Rgb(68.0 / 255.0, 68.0 / 255.0, 1.0)

  /** One generated point: its position and its colour. */
  datatype Particle = Particle(position: Vec3, color: Rgb)

  /** `(i % armCount) * Math.PI * 2 / armCount`: the arm point `i` belongs to. */
  function BranchAngle(i: nat): real {
    (i % ArmCount) as real * PI * 2.0 / ArmCount as real
  }

  /** With two arms, even points start on the arm at angle 0 and odd points on the arm at PI. */
  lemma BranchAngleParity(i: nat)
    ensures BranchAngle(i) == (if i % 2 == 0 then 0.0 else PI)
  {
  }

  /** `1 - Math.pow(t, 2) * 0.8`: how much of the full thickness is kept at fraction `t` of the radius. */
  function Damping(t: real): real {
    1.0 - t * t * 0.8
  }

  lemma DampingRange(t: real)
    requires 0.0 <= t < 1.0
    ensures 0.2 < Damping(t) <= 1.0
  {
    MulMono(t, t, 1.0);
    assert t * t < 1.0;
    assert 0.0 <= t * t by { MulMono(t, 0.0, t); }
  }

  /** `centerColor.clone().lerp(edgeColor, t)`. */
  function MixColour(center: Rgb, edge: Rgb, t: real): Rgb {
    Rgb(Lerp(center.r, edge.r, t), Lerp(center.g, edge.g, t), Lerp(center.b, edge.b, t))
  }

  /** `Math.random() * galaxyRadius`: the distance of a point from the centre. */
  function Radius(galaxyRadius: real, u: Unit): real {
    u * galaxyRadius
  }

  /**
   * Point `i` of the disk, from its three draws: `u0` for the radius, `u1` for the
   * random part of the angle and `u2` for the height.
   */
  function MakeParticle(m: MathLib, galaxyRadius: real, galaxyThickness: real, i: nat, u0: Unit, u1: Unit, u2: Unit): Particle
    requires galaxyRadius > 0.0
  {
    var radius := Radius(galaxyRadius, u0);
    var mixedAngle := BranchAngle(i) + radius * 0.5 + u1 * PI * 2.0 * 0.3;
    var z := (u2 * 2.0 - 1.0) * galaxyThickness * Damping(radius / galaxyRadius);
    Particle(Vec3(m.cos(mixedAngle) * radius, m.sin(mixedAngle) * radius, z),
             MixColour(CenterColor, EdgeColor, radius / galaxyRadius))
  }

  /** Point `i` of a disk generated from the draw stream `rand` (draws `3i`, `3i+1`, `3i+2`). */
  function ParticleAt(m: MathLib, galaxyRadius: real, galaxyThickness: real, i: nat, rand: Random): Particle
    requires galaxyRadius > 0.0
  {
    MakeParticle(m, galaxyRadius, galaxyThickness, i, rand(3 * i), rand(3 * i + 1), rand(3 * i + 2))
  }

  lemma RadiusRange(galaxyRadius: real, u: Unit)
    requires galaxyRadius > 0.0
    ensures 0.0 <= Radius(galaxyRadius, u) < galaxyRadius
    ensures Radius(galaxyRadius, u) / galaxyRadius == u
  {
    var r := Radius(galaxyRadius, u);
    assert 0.0 <= r by { MulMono(galaxyRadius, 0.0, u); }
    assert r < galaxyRadius by {
      assert galaxyRadius - r == galaxyRadius * (1.0 - u);
      MulPos(galaxyRadius, 1.0 - u);
    }
    assert r / galaxyRadius == u by {
      assert u * galaxyRadius == r;
    }
  }

  /** The squared distance of a point from the disk's spin axis (the z axis of the points object). */
  function AxisDistance2(p: Vec3): real {
    p.x * p.x + p.y * p.y
  }

  /**
   * A point lies in the disk of `galaxyRadius`: its distance from the spin axis is
   * the drawn radius, which is below `galaxyRadius`.
   */
  lemma ParticleInDisk(m: MathLib, galaxyRadius: real, galaxyThickness: real, i: nat, u0: Unit, u1: Unit, u2: Unit)
    requires m.Lawful() && galaxyRadius > 0.0
    ensures var p := MakeParticle(m, galaxyRadius, galaxyThickness, i, u0, u1, u2).position;
      AxisDistance2(p) == Radius(galaxyRadius, u0) * Radius(galaxyRadius, u0)
    ensures 0.0 <= Radius(galaxyRadius, u0) < galaxyRadius
  {
    var radius := Radius(galaxyRadius, u0);
    var a := BranchAngle(i) + radius * 0.5 + u1 * PI * 2.0 * 0.3;
    var p := MakeParticle(m, galaxyRadius, galaxyThickness, i, u0, u1, u2).position;
    var q := PlaceOnCircle(m, Origin, a, radius);
    assert p.x == q.x && p.y == q.z;
    RadiusRange(galaxyRadius, u0);
    PlaceOnCircleDistance(m, Origin, a, radius);
  }

  /** `sqrt(x^2 + y^2)` of a point is the radius it was drawn with. */
  lemma ParticleAxisDistance(m: MathLib, galaxyRadius: real, galaxyThickness: real, i: nat, u0: Unit, u1: Unit, u2: Unit)
    requires m.Lawful() && galaxyRadius > 0.0
    ensures var p := MakeParticle(m, galaxyRadius, galaxyThickness, i, u0, u1, u2).position;
      m.sqrt(AxisDistance2(p)) == Radius(galaxyRadius, u0)
  {
    var p := MakeParticle(m, galaxyRadius, galaxyThickness, i, u0, u1, u2).position;
    ParticleInDisk(m, galaxyRadius, galaxyThickness, i, u0, u1, u2);
    SqrtOfSquare(m, AxisDistance2(p), Radius(galaxyRadius, u0));
  }

  /**
   * A point is never further from the disk's mid-plane than `galaxyThickness`, and
   * the factor its height is damped by is in (0.2, 1].
   */
  lemma ParticleThickness(m: MathLib, galaxyRadius: real, galaxyThickness: real, i: nat, u0: Unit, u1: Unit, u2: Unit)
    requires galaxyRadius > 0.0 && galaxyThickness >= 0.0
    ensures 0.2 < Damping(Radius(galaxyRadius, u0) / galaxyRadius) <= 1.0
    ensures -galaxyThickness <= MakeParticle(m, galaxyRadius, galaxyThickness, i, u0, u1, u2).position.z <= galaxyThickness
  {
    RadiusRange(galaxyRadius, u0);
    DampingRange(u0);
    var d := Damping(u0);
    var w := u2 * 2.0 - 1.0;
    MulBound(galaxyThickness, w);
    var h := w * galaxyThickness;
    assert -galaxyThickness <= h <= galaxyThickness;
    ScaledStaysWithin(h, galaxyThickness, d);
  }

  lemma ScaledStaysWithin(h: real, bound: real, d: real)
    requires -bound <= h <= bound && 0.0 <= d <= 1.0
    ensures -bound <= h * d <= bound
  {
    if h >= 0.0 {
      ScaleBetween(h, d);
    } else {
      assert h * d - h == (-h) * (1.0 - d);
      ScaleBetween(-h, 1.0 - d);
      ScaleBetween(-h, d);
    }
  }

  /** Every colour channel of a point lies between the centre colour's and the edge colour's. */
  lemma ParticleColourBetween(m: MathLib, galaxyRadius: real, galaxyThickness: real, i: nat, u0: Unit, u1: Unit, u2: Unit)
    requires galaxyRadius > 0.0
    ensures var c := MakeParticle(m, galaxyRadius, galaxyThickness, i, u0, u1, u2).color;
      && Between(CenterColor.r, EdgeColor.r, c.r)
      && Between(CenterColor.g, EdgeColor.g, c.g)
      && Between(CenterColor.b, EdgeColor.b, c.b)
  {
    RadiusRange(galaxyRadius, u0);
    LerpBetween(CenterColor.r, EdgeColor.r, u0);
    LerpBetween(CenterColor.g, EdgeColor.g, u0);
    LerpBetween(CenterColor.b, EdgeColor.b, u0);
  }

  /** The position buffer: slot `k` holds coordinate `k % 3` of point `k / 3`. */
  function GalaxyPositions(m: MathLib, galaxyRadius: real, galaxyThickness: real, count: nat, rand: Random): (s: seq<real>)
    requires galaxyRadius > 0.0
    ensures |s| == 3 * count
  {
    seq(3 * count, k requires 0 <= k => Coord(ParticleAt(m, galaxyRadius, galaxyThickness, k / 3, rand).position, k % 3))
  }

  /** The colour buffer: slot `k` holds channel `k % 3` of point `k / 3`. */
  function GalaxyColours(m: MathLib, galaxyRadius: real, galaxyThickness: real, count: nat, rand: Random): (s: seq<real>)
    requires galaxyRadius > 0.0
    ensures |s| == 3 * count
  {
    seq(3 * count, k requires 0 <= k => Channel(ParticleAt(m, galaxyRadius, galaxyThickness, k / 3, rand).color, k % 3))
  }

  /** The body of the generation loop for point `i`: the draws, the angle, the height and the colour. */
  method ComputeParticle(m: MathLib, galaxyRadius: real, galaxyThickness: real, i: nat, rand: Random)
    returns (p: Particle)
    requires galaxyRadius > 0.0
    ensures p == ParticleAt(m, galaxyRadius, galaxyThickness, i, rand)
    ensures 0.0 <= Radius(galaxyRadius, rand(3 * i)) < galaxyRadius
    ensures m.Lawful() ==>
      AxisDistance2(p.position) == Radius(galaxyRadius, rand(3 * i)) * Radius(galaxyRadius, rand(3 * i))
    ensures galaxyThickness >= 0.0 ==> -galaxyThickness <= p.position.z <= galaxyThickness
    ensures Between(CenterColor.r, EdgeColor.r, p.color.r) && Between(CenterColor.g, EdgeColor.g, p.color.g)
         && Between(CenterColor.b, EdgeColor.b, p.color.b)
  {
    var radius := rand(3 * i) * galaxyRadius;
    var branchAngle := (i % ArmCount) as real * PI * 2.0 / ArmCount as real;
    var spinAngle := radius * 0.5;
    var randomAngle := rand(3 * i + 1) * PI * 2.0;
    var mixedAngle := branchAngle + spinAngle + randomAngle * 0.3;
    var randomZ := rand(3 * i + 2) * 2.0 - 1.0;
    var t := radius / galaxyRadius;
    var z := randomZ * galaxyThickness * (1.0 - t * t * 0.8);
    var mixed := MixColour(CenterColor, EdgeColor, t);
    assert randomAngle * 0.3 == rand(3 * i + 1) * PI * 2.0 * 0.3;
    p := Particle(Vec3(m.cos(mixedAngle) * radius, m.sin(mixedAngle) * radius, z), mixed);
    ghost var u0, u1, u2 := rand(3 * i), rand(3 * i + 1), rand(3 * i + 2);
    RadiusRange(galaxyRadius, u0);
    if m.Lawful() {
      ParticleInDisk(m, galaxyRadius, galaxyThickness, i, u0, u1, u2);
    }
    if galaxyThickness >= 0.0 {
      ParticleThickness(m, galaxyRadius, galaxyThickness, i, u0, u1, u2);
    }
    ParticleColourBetween(m, galaxyRadius, galaxyThickness, i, u0, u1, u2);
  }

  /** Slots `3i`, `3i+1`, `3i+2` of the two buffers hold the position and the colour of `p`. */
  ghost predicate PointIn(positions: seq<real>, colors: seq<real>, i: nat, p: Particle) {
    && 3 * i + 2 < |positions| && 3 * i + 2 < |colors|
    && positions[3 * i] == p.position.x && positions[3 * i + 1] == p.position.y && positions[3 * i + 2] == p.position.z
    && colors[3 * i] == p.color.r && colors[3 * i + 1] == p.color.g && colors[3 * i + 2] == p.color.b
  }

  /** Writes point `i` into slots `3i`, `3i+1`, `3i+2` of both buffers. */
  method WriteParticle(positions: array<real>, colors: array<real>, i: nat, p: Particle)
    requires positions != colors && 3 * i + 2 < positions.Length && 3 * i + 2 < colors.Length
    modifies positions, colors
    ensures positions[..3 * i] == old(positions[..3 * i]) && colors[..3 * i] == old(colors[..3 * i])
    ensures PointIn(positions[..], colors[..], i, p)
  {
    var i3 := i * 3;
    positions[i3] := p.position.x;
    positions[i3 + 1] := p.position.y;
    positions[i3 + 2] := p.position.z;
    colors[i3] := p.color.r;
    colors[i3 + 1] := p.color.g;
    colors[i3 + 2] := p.color.b;
  }

  /**
   * The memoised generator: two fresh buffers of `3 * particleCount` slots, every
   * slot written once, point by point.
   */
  method Generate(m: MathLib, particleCount: nat, galaxyRadius: real, galaxyThickness: real, rand: Random)
    returns (positions: array<real>, colors: array<real>)
    requires galaxyRadius > 0.0
    ensures fresh(positions) && fresh(colors) && positions != colors
    ensures positions[..] == GalaxyPositions(m, galaxyRadius, galaxyThickness, particleCount, rand)
    ensures colors[..] == GalaxyColours(m, galaxyRadius, galaxyThickness, particleCount, rand)
  {
    positions := new real[particleCount * 3];
    colors := new real[particleCount * 3];
    for i := 0 to particleCount
      invariant forall j :: 0 <= j < i ==> PointIn(positions[..], colors[..], j, ParticleAt(m, galaxyRadius, galaxyThickness, j, rand))
    {
      ghost var before, beforeColours := positions[..], colors[..];
      var p := ComputeParticle(m, galaxyRadius, galaxyThickness, i, rand);
      WriteParticle(positions, colors, i, p);
      PointsKept(m, galaxyRadius, galaxyThickness, rand, before, beforeColours, positions[..], colors[..], i);
    }
    BuffersFromPoints(m, galaxyRadius, galaxyThickness, particleCount, rand, positions[..], colors[..]);
  }

  /** Rewriting slots from `3i` on keeps points `0 .. i-1` in place, and point `i` joins them. */
  lemma PointsKept(m: MathLib, galaxyRadius: real, galaxyThickness: real, rand: Random,
                   positions: seq<real>, colors: seq<real>, positions': seq<real>, colors': seq<real>, i: nat)
    requires galaxyRadius > 0.0
    requires |positions| == |positions'| && |colors| == |colors'| && 3 * i <= |positions| && 3 * i <= |colors|
    requires positions[..3 * i] == positions'[..3 * i] && colors[..3 * i] == colors'[..3 * i]
    requires forall j :: 0 <= j < i ==> PointIn(positions, colors, j, ParticleAt(m, galaxyRadius, galaxyThickness, j, rand))
    requires PointIn(positions', colors', i, ParticleAt(m, galaxyRadius, galaxyThickness, i, rand))
    ensures forall j :: 0 <= j < i + 1 ==> PointIn(positions', colors', j, ParticleAt(m, galaxyRadius, galaxyThickness, j, rand))
  {
    forall j | 0 <= j < i
      ensures PointIn(positions', colors', j, ParticleAt(m, galaxyRadius, galaxyThickness, j, rand))
    {
      assert 3 * j + 2 < 3 * i;
      assert PointIn(positions, colors, j, ParticleAt(m, galaxyRadius, galaxyThickness, j, rand));
      assert positions[..3 * i][3 * j] == positions'[..3 * i][3 * j];
      assert positions[..3 * i][3 * j + 1] == positions'[..3 * i][3 * j + 1];
      assert positions[..3 * i][3 * j + 2] == positions'[..3 * i][3 * j + 2];
      assert colors[..3 * i][3 * j] == colors'[..3 * i][3 * j];
      assert colors[..3 * i][3 * j + 1] == colors'[..3 * i][3 * j + 1];
      assert colors[..3 * i][3 * j + 2] == colors'[..3 * i][3 * j + 2];
    }
  }

  /** Two buffers holding point `j` at slots `3j`, `3j+1`, `3j+2` for every `j` are the generated buffers. */
  lemma BuffersFromPoints(m: MathLib, galaxyRadius: real, galaxyThickness: real, count: nat, rand: Random,
                          positions: seq<real>, colors: seq<real>)
    requires galaxyRadius > 0.0
    requires |positions| == 3 * count && |colors| == 3 * count
    requires forall j :: 0 <= j < count ==> PointIn(positions, colors, j, ParticleAt(m, galaxyRadius, galaxyThickness, j, rand))
    ensures positions == GalaxyPositions(m, galaxyRadius, galaxyThickness, count, rand)
    ensures colors == GalaxyColours(m, galaxyRadius, galaxyThickness, count, rand)
  {
    forall k | 0 <= k < 3 * count
      ensures positions[k] == GalaxyPositions(m, galaxyRadius, galaxyThickness, count, rand)[k]
      ensures colors[k] == GalaxyColours(m, galaxyRadius, galaxyThickness, count, rand)[k]
    {
      var j := k / 3;
      assert PointIn(positions, colors, j, ParticleAt(m, galaxyRadius, galaxyThickness, j, rand));
      assert k == 3 * j + k % 3;
    }
  }

  /** The component instance: its props, its memoised buffers and the rotation of the points object. */
  class GalaxyView {
    const math: MathLib
    var particleCount: nat
    var galaxyRadius: real
    var galaxyThickness: real
    var rotationSpeed: real
    var positions: array<real>
    var colors: array<real>
    /** `points.current.rotation.y`. */
    var rotationY: real
    /** The draws the current buffers were generated from. */
    ghost var draws: Random

    ghost predicate Valid()
      reads this, positions, colors
    {
      && galaxyRadius > 0.0
      && positions != colors
      && positions[..] == GalaxyPositions(math, galaxyRadius, galaxyThickness, particleCount, draws)
      && colors[..] == GalaxyColours(math, galaxyRadius, galaxyThickness, particleCount, draws)
    }

    constructor (math: MathLib, particleCount: nat, galaxyRadius: real, galaxyThickness: real,
                 rotationSpeed: real, rand: Random)
      requires galaxyRadius > 0.0
      ensures Valid() && draws == rand && rotationY == 0.0
      ensures this.math == math && this.particleCount == particleCount && this.galaxyRadius == galaxyRadius
      ensures this.galaxyThickness == galaxyThickness && this.rotationSpeed == rotationSpeed
    {
      this.math := math;
      this.particleCount := particleCount;
      this.galaxyRadius := galaxyRadius;
      this.galaxyThickness := galaxyThickness;
      this.rotationSpeed := rotationSpeed;
      var p, c := Generate(math, particleCount, galaxyRadius, galaxyThickness, rand);
      positions, colors := p, c;
      rotationY := 0.0;
      draws := rand;
    }

    /**
     * A re-render with new props. The buffers are regenerated, from fresh draws,
     * exactly when the particle count, the radius or the thickness changed; a new
     * rotation speed alone keeps them.
     */
    method Render(particleCount': nat, galaxyRadius': real, galaxyThickness': real, rotationSpeed': real, rand: Random)
      requires Valid() && galaxyRadius' > 0.0
      modifies this
      ensures Valid()
      ensures particleCount == particleCount' && galaxyRadius == galaxyRadius'
      ensures galaxyThickness == galaxyThickness' && rotationSpeed == rotationSpeed'
      ensures rotationY == old(rotationY)
      ensures particleCount' == old(particleCount) && galaxyRadius' == old(galaxyRadius)
              && galaxyThickness' == old(galaxyThickness) ==>
        positions == old(positions) && colors == old(colors) && draws == old(draws)
      ensures !(particleCount' == old(particleCount) && galaxyRadius' == old(galaxyRadius)
                && galaxyThickness' == old(galaxyThickness)) ==>
        fresh(positions) && fresh(colors) && draws == rand
    {
      if particleCount' != particleCount || galaxyRadius' != galaxyRadius || galaxyThickness' != galaxyThickness {
        var p, c := Generate(math, particleCount', galaxyRadius', galaxyThickness', rand);
        positions, colors := p, c;
        draws := rand;
      }
      particleCount, galaxyRadius, galaxyThickness := particleCount', galaxyRadius', galaxyThickness';
      rotationSpeed := rotationSpeed';
    }

    /** One `useFrame` callback: once the points object is mounted it turns by `rotationSpeed * 0.01`. */
    method Frame(mounted: bool)
      requires Valid()
      modifies this
      ensures Valid()
      ensures rotationY == (if mounted then old(rotationY) + rotationSpeed * 0.01 else old(rotationY))
      ensures particleCount == old(particleCount) && galaxyRadius == old(galaxyRadius)
      ensures galaxyThickness == old(galaxyThickness) && rotationSpeed == old(rotationSpeed)
      ensures positions == old(positions) && colors == old(colors) && draws == old(draws)
    {
      if mounted {
        rotationY := rotationY + rotationSpeed * 0.01;
      }
    }
  }
}
