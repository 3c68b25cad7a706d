/**
 * The `Comet` component: an eccentric, inclined orbit given by perihelion and
 * aphelion distances, a per-frame phase step, and a 100-particle tail whose
 * position buffer is rewritten in place every frame.
 */
module Comets {
  import opened Common

  /** Number of tail particles; the position and colour buffers hold three reals each. */
  const ParticleCount: nat := 100

  /** Number of segments of the drawn orbit path (129 points). */
  const OrbitSegments: nat := 128

  // ---------------------------------------------------------------------------
  // Ellipse parameters and the radius formula
  // ---------------------------------------------------------------------------

  /** The `semiMajorAxis` memo. */
  function SemiMajorAxis(perihelion: real, aphelion: real): real {
    (perihelion + aphelion) / 2.0
  }

  /** The `eccentricity` memo; `perihelion + aphelion == 0` would divide by zero. */
  function Eccentricity(perihelion: real, aphelion: real): real
    requires perihelion + aphelion > 0.0
  {
    (aphelion - perihelion) / (aphelion + perihelion)
  }

  /** For a proper orbit the eccentricity is in [0, 1): the conic is an ellipse. */
  lemma EccentricityRange(perihelion: real, aphelion: real)
    requires 0.0 < perihelion <= aphelion
    ensures 0.0 <= Eccentricity(perihelion, aphelion) < 1.0
    ensures perihelion <= SemiMajorAxis(perihelion, aphelion) <= aphelion
  {
  }

  /** The two memos describe the ellipse whose closest and farthest distances are the inputs. */
  lemma ApsidesFromAxis(perihelion: real, aphelion: real)
    requires 0.0 < perihelion <= aphelion
    ensures SemiMajorAxis(perihelion, aphelion) * (1.0 - Eccentricity(perihelion, aphelion)) == perihelion
    ensures SemiMajorAxis(perihelion, aphelion) * (1.0 + Eccentricity(perihelion, aphelion)) == aphelion
  {
    var s := aphelion + perihelion;
    var e := Eccentricity(perihelion, aphelion);
    assert e * s == aphelion - perihelion;
    assert (1.0 - e) * s == 2.0 * perihelion;
    assert (1.0 + e) * s == 2.0 * aphelion;
  }

  /**
   * The distance of the comet from the sun for `c == cos(angle)`:
   * `a (1 - e^2) / (1 + e c)`.
   */
  function OrbitRadius(perihelion: real, aphelion: real, c: real): real
    requires 0.0 < perihelion <= aphelion && -1.0 <= c <= 1.0
  {
    var e := Eccentricity(perihelion, aphelion);
    EccentricityRange(perihelion, aphelion);
    assert e * c >= -e by { MulBound(e, c); }
    SemiMajorAxis(perihelion, aphelion) * (1.0 - e * e) / (1.0 + e * c)
  }

  /** The radius formula with its division cleared: `r ((a + p) + (a - p) c) == 2 a p`. */
  lemma RadiusTimesDenominator(perihelion: real, aphelion: real, c: real)
    requires 0.0 < perihelion <= aphelion && -1.0 <= c <= 1.0
    ensures OrbitRadius(perihelion, aphelion, c) * ((aphelion + perihelion) + (aphelion - perihelion) * c)
         == 2.0 * aphelion * perihelion
  {
    var s, d := aphelion + perihelion, aphelion - perihelion;
    var e := Eccentricity(perihelion, aphelion);
    assert e * s == d;
    var num := SemiMajorAxis(perihelion, aphelion) * (1.0 - e * e);
    assert num * s == 2.0 * aphelion * perihelion by {
      assert (1.0 - e * e) * s * s == s * s - d * d;
      assert s * s - d * d == 4.0 * aphelion * perihelion;
    }
    var den := 1.0 + e * c;
    assert den * s == s + d * c;
    EccentricityRange(perihelion, aphelion);
    MulBound(e, c);
    assert den > 0.0;
    assert OrbitRadius(perihelion, aphelion, c) == num / den;
    assert OrbitRadius(perihelion, aphelion, c) * den == num;
  }

  /** A quotient `r = 2ap / D` with `D` between `2p` and `2a` lies between `p` and `a`. */
  lemma QuotientBetween(r: real, D: real, p: real, a: real)
    requires 0.0 < p <= a && 2.0 * p <= D <= 2.0 * a && r * D == 2.0 * a * p
    ensures p <= r <= a
  {
    assert p * D <= r * D by { MulMono(p, D, 2.0 * a); }
    CancelPositive(p, r, D);
    assert r * D <= a * D by { MulMono(a, 2.0 * p, D); }
    CancelPositive(r, a, D);
  }

  /** Of two positive quotients of the same numerator, the larger denominator gives the smaller one. */
  lemma QuotientAntitone(r1: real, r2: real, D1: real, D2: real, K: real)
    requires 0.0 < D1 <= D2 && r1 * D1 == K && r2 * D2 == K && r2 >= 0.0
    ensures r2 <= r1
  {
    MulMono(r2, D1, D2);
    CancelPositive(r2, r1, D1);
  }

  /** The comet never comes closer than perihelion nor goes farther than aphelion. */
  lemma RadiusBetweenApsides(perihelion: real, aphelion: real, c: real)
    requires 0.0 < perihelion <= aphelion && -1.0 <= c <= 1.0
    ensures perihelion <= OrbitRadius(perihelion, aphelion, c) <= aphelion
  {
    var d := aphelion - perihelion;
    MulBound(d, c);
    var D := (aphelion + perihelion) + d * c;
    assert 2.0 * perihelion <= D <= 2.0 * aphelion;
    RadiusTimesDenominator(perihelion, aphelion, c);
    QuotientBetween(OrbitRadius(perihelion, aphelion, c), D, perihelion, aphelion);
  }

  /** At `cos == 1` the comet is exactly at perihelion, at `cos == -1` exactly at aphelion. */
  lemma RadiusAtApsides(perihelion: real, aphelion: real)
    requires 0.0 < perihelion <= aphelion
    ensures OrbitRadius(perihelion, aphelion, 1.0) == perihelion
    ensures OrbitRadius(perihelion, aphelion, -1.0) == aphelion
  {
    RadiusTimesDenominator(perihelion, aphelion, 1.0);
    RadiusTimesDenominator(perihelion, aphelion, -1.0);
    var r1, r2 := OrbitRadius(perihelion, aphelion, 1.0), OrbitRadius(perihelion, aphelion, -1.0);
    assert r1 * (2.0 * aphelion) == perihelion * (2.0 * aphelion);
    CancelPositive(r1, perihelion, 2.0 * aphelion);
    CancelPositive(perihelion, r1, 2.0 * aphelion);
    assert r2 * (2.0 * perihelion) == aphelion * (2.0 * perihelion);
    CancelPositive(r2, aphelion, 2.0 * perihelion);
    CancelPositive(aphelion, r2, 2.0 * perihelion);
  }

  /** The radius shrinks as `cos(angle)` grows: the comet is closest where the cosine is largest. */
  lemma RadiusMonotone(perihelion: real, aphelion: real, c1: real, c2: real)
    requires 0.0 < perihelion <= aphelion && -1.0 <= c1 <= c2 <= 1.0
    ensures OrbitRadius(perihelion, aphelion, c2) <= OrbitRadius(perihelion, aphelion, c1)
  {
    var r1, r2 := OrbitRadius(perihelion, aphelion, c1), OrbitRadius(perihelion, aphelion, c2);
    var d := aphelion - perihelion;
    var D1, D2 := (aphelion + perihelion) + d * c1, (aphelion + perihelion) + d * c2;
    RadiusTimesDenominator(perihelion, aphelion, c1);
    RadiusTimesDenominator(perihelion, aphelion, c2);
    RadiusBetweenApsides(perihelion, aphelion, c2);
    assert 0.0 < D1 by { MulBound(d, c1); }
    assert D1 <= D2 by { MulMono(d, c1, c2); }
    QuotientAntitone(r1, r2, D1, D2, 2.0 * aphelion * perihelion);
  }

  // ---------------------------------------------------------------------------
  // Position on the inclined orbit
  // ---------------------------------------------------------------------------

  /** The comet's position: the orbit plane is tilted about the x axis by `inclination`. */
  function CometPosition(m: MathLib, r: real, angle: real, inclination: real): Vec3 {
    Vec3(r * m.cos(angle),
         r * m.sin(angle) * m.sin(inclination),
         r * m.sin(angle) * m.cos(inclination))
  }

  /** Tilting the orbit plane does not change the distance from the sun: it is `r`. */
  lemma PositionDistance(m: MathLib, r: real, angle: real, inclination: real)
    requires m.Lawful()
    ensures CometPosition(m, r, angle, inclination).Norm2() == r * r
  {
    var c, s := m.cos(angle), m.sin(angle);
    var ci, si := m.cos(inclination), m.sin(inclination);
    var q := r * s;
    assert q * si * (q * si) + q * ci * (q * ci) == q * q * (si * si + ci * ci);
    assert si * si + ci * ci == 1.0;
    assert r * c * (r * c) + q * q == r * r * (c * c + s * s);
    assert c * c + s * s == 1.0;
  }

  /** The position a frame computes from the phase `angle`. */
  function OrbitPosition(m: MathLib, perihelion: real, aphelion: real, inclination: real, angle: real): Vec3
    requires m.Lawful() && 0.0 < perihelion <= aphelion
  {
    CosSinBounded(m, angle);
    CometPosition(m, OrbitRadius(perihelion, aphelion, m.cos(angle)), angle, inclination)
  }

  /** Every position a frame computes lies between the perihelion and aphelion spheres. */
  lemma PositionOnOrbit(m: MathLib, perihelion: real, aphelion: real, inclination: real, angle: real)
    requires m.Lawful() && 0.0 < perihelion <= aphelion
    ensures perihelion * perihelion
         <= OrbitPosition(m, perihelion, aphelion, inclination, angle).Norm2()
         <= aphelion * aphelion
  {
    CosSinBounded(m, angle);
    var r := OrbitRadius(perihelion, aphelion, m.cos(angle));
    RadiusBetweenApsides(perihelion, aphelion, m.cos(angle));
    PositionDistance(m, r, angle, inclination);
    SquareBetween(perihelion, r, aphelion, OrbitPosition(m, perihelion, aphelion, inclination, angle).Norm2());
  }

  /** The distance `Math.sqrt(x*x + y*y + z*z)` a frame computes is the orbit radius. */
  lemma DistanceIsRadius(m: MathLib, perihelion: real, aphelion: real, inclination: real, angle: real)
    requires m.Lawful() && 0.0 < perihelion <= aphelion
    ensures -1.0 <= m.cos(angle) <= 1.0
    ensures m.sqrt(OrbitPosition(m, perihelion, aphelion, inclination, angle).Norm2())
         == OrbitRadius(perihelion, aphelion, m.cos(angle))
  {
    CosSinBounded(m, angle);
    var r := OrbitRadius(perihelion, aphelion, m.cos(angle));
    RadiusBetweenApsides(perihelion, aphelion, m.cos(angle));
    PositionDistance(m, r, angle, inclination);
    SqrtOfSquare(m, OrbitPosition(m, perihelion, aphelion, inclination, angle).Norm2(), r);
  }

  /** The phase of the i-th point of the drawn orbit path, `(i / 128) * PI * 2`. */
  function PathAngle(i: nat): real {
    (i as real / OrbitSegments as real) * PI * 2.0
  }

  // ---------------------------------------------------------------------------
  // The tail
  // ---------------------------------------------------------------------------

  /** Tail length at `distance` from the sun: shrinks linearly to 30% at aphelion. */
  function CurrentTailLength(tailLength: real, distance: real, aphelion: real): real
    requires aphelion > 0.0
  {
    tailLength * (1.0 - Min(1.0, distance / aphelion) * 0.7)
  }

  /** The tail is never shorter than 30% nor longer than 100% of `tailLength`. */
  lemma TailLengthBounds(tailLength: real, distance: real, aphelion: real)
    requires aphelion > 0.0 && tailLength >= 0.0 && distance >= 0.0
    ensures 0.3 * tailLength <= CurrentTailLength(tailLength, distance, aphelion) <= tailLength
  {
    var f := 1.0 - Min(1.0, distance / aphelion) * 0.7;
    assert 0.3 <= f <= 1.0;
    MulMono(tailLength, 0.3, f);
    MulMono(tailLength, f, 1.0);
  }

  /** At the sun the tail has its full length. */
  lemma TailLengthAtSun(tailLength: real, aphelion: real)
    requires aphelion > 0.0
    ensures CurrentTailLength(tailLength, 0.0, aphelion) == tailLength
  {
  }

  /** From aphelion outwards the tail is exactly 30% of `tailLength`. */
  lemma TailLengthBeyondAphelion(tailLength: real, distance: real, aphelion: real)
    requires aphelion > 0.0 && distance >= aphelion
    ensures CurrentTailLength(tailLength, distance, aphelion) == 0.3 * tailLength
  {
    assert distance / aphelion >= 1.0 by {
      CancelPositive(1.0, distance / aphelion, aphelion);
    }
  }

  /** A comet farther from the sun never has a longer tail. */
  lemma TailLengthAntitone(tailLength: real, d1: real, d2: real, aphelion: real)
    requires aphelion > 0.0 && tailLength >= 0.0 && d1 <= d2
    ensures CurrentTailLength(tailLength, d2, aphelion) <= CurrentTailLength(tailLength, d1, aphelion)
  {
    assert d1 / aphelion <= d2 / aphelion by {
      CancelPositive(d1 / aphelion, d2 / aphelion, aphelion);
    }
    MulMono(tailLength, 1.0 - Min(1.0, d2 / aphelion) * 0.7, 1.0 - Min(1.0, d1 / aphelion) * 0.7);
  }

  /** The random offset of one particle coordinate, `(Math.random() - 0.5) * ratio * 0.5`. */
  function Jitter(u: real, ratio: real): real {
    (u - 0.5) * ratio * 0.5
  }

  /** A jitter component is at most a quarter of the particle's ratio in magnitude. */
  lemma JitterBound(u: Unit, ratio: real)
    requires ratio >= 0.0
    ensures -0.25 * ratio <= Jitter(u, ratio) <= 0.25 * ratio
  {
    var w := u - 0.5;
    MulMono(ratio, -0.5, w);
    MulMono(ratio, w, 0.5);
  }

  /** Particle `i` sits at fraction `i / 100` of the tail. */
  function Ratio(i: nat): real {
    i as real / ParticleCount as real
  }

  /** Coordinate `axis` of particle `i` after a frame, drawn with random number `u`. */
  function TailCoord(comet: Vec3, dir: Vec3, len: real, u: real, i: nat, axis: nat): real
    requires axis < 3
  {
    Coord(comet, axis) + Coord(dir, axis) * len * Ratio(i) + Jitter(u, Ratio(i))
  }

  /** The whole position buffer after a frame. */
  function TailPositions(comet: Vec3, dir: Vec3, len: real, rand: Random): seq<real> {
    seq(3 * ParticleCount, k requires 0 <= k => TailCoord(comet, dir, len, rand(k), k / 3, k % 3))
  }

  /**
   * Particle `i` lies at `comet + dir * len * (i / 100)` up to a jitter of at most
   * `0.25 * (i / 100)` per coordinate.
   */
  lemma TailParticle(comet: Vec3, dir: Vec3, len: real, rand: Random, i: nat, axis: nat)
    requires i < ParticleCount && axis < 3
    ensures 0.0 <= Ratio(i) < 1.0
    ensures |TailPositions(comet, dir, len, rand)| == 3 * ParticleCount
    ensures -0.25 * Ratio(i)
         <= TailPositions(comet, dir, len, rand)[3 * i + axis]
            - (Coord(comet, axis) + Coord(dir, axis) * len * Ratio(i))
         <= 0.25 * Ratio(i)
  {
    var k := 3 * i + axis;
    assert k / 3 == i && k % 3 == axis;
    JitterBound(rand(k), Ratio(i));
  }

  /** The first particle has ratio 0, so it sits exactly on the comet. */
  lemma TailStartsAtComet(comet: Vec3, dir: Vec3, len: real, rand: Random)
    ensures TailPositions(comet, dir, len, rand)[..3] == [comet.x, comet.y, comet.z]
  {
    var t := TailPositions(comet, dir, len, rand);
    assert 1 / 3 == 0 && 2 / 3 == 0;
    assert t[0] == comet.x && t[1] == comet.y && t[2] == comet.z;
  }

  /** `new THREE.Vector3(-x, -y, -z).normalize()`: the unit vector from the comet to the sun. */
  function TailDirection(m: MathLib, comet: Vec3): Vec3 {
    Normalize(m, Vec3(-comet.x, -comet.y, -comet.z))
  }

  lemma TailDirectionUnit(m: MathLib, comet: Vec3)
    requires m.Lawful() && comet.Norm2() > 0.0
    ensures TailDirection(m, comet).Norm2() == 1.0
  {
    var v := Vec3(-comet.x, -comet.y, -comet.z);
    assert v.Norm2() == comet.Norm2();
    NormalizeUnit(m, v);
  }

  /**
   * As written, the tail direction points from the comet towards the sun, so moving
   * along it by `s` (up to the comet's distance) brings a particle closer to the sun.
   */
  lemma TailAxisSunward(m: MathLib, comet: Vec3, s: real)
    requires m.Lawful() && comet.Norm2() > 0.0 && 0.0 < s <= m.sqrt(comet.Norm2())
    ensures comet.Plus(TailDirection(m, comet).Times(s)).Norm2() < comet.Norm2()
  {
    var n := comet.Norm2();
    var d := m.sqrt(n);
    PositiveRoot(d, n);
    var v := Vec3(-comet.x, -comet.y, -comet.z);
    assert v.Norm2() == n;
    var f := 1.0 - s / d;
    assert 0.0 <= f < 1.0 by { QuotientAtMostOne(s, d); }
    assert TailDirection(m, comet) == v.Times(1.0 / d);
    StepAlong(comet, v, d, s, -1.0);
    Norm2Scaled(comet, f);
    ScaledBelow(f, n, comet.Times(f).Norm2());
  }

  /** The direction the tail is evidently meant to take: from the sun through the comet. */
  function AntiSunwardDirection(m: MathLib, comet: Vec3): Vec3 {
    Normalize(m, comet)
  }

  /** Moving along the intended direction by any positive `s` takes a particle farther from the sun. */
  lemma TailAxisAntiSunward(m: MathLib, comet: Vec3, s: real)
    requires m.Lawful() && comet.Norm2() > 0.0 && 0.0 < s
    ensures AntiSunwardDirection(m, comet).Norm2() == 1.0
    ensures comet.Plus(AntiSunwardDirection(m, comet).Times(s)).Norm2() > comet.Norm2()
  {
    NormalizeUnit(m, comet);
    var n := comet.Norm2();
    var d := m.sqrt(n);
    PositiveRoot(d, n);
    var f := 1.0 + s / d;
    assert f > 1.0;
    assert AntiSunwardDirection(m, comet) == comet.Times(1.0 / d);
    StepAlong(comet, comet, d, s, 1.0);
    Norm2Scaled(comet, f);
    ScaledAbove(f, n, comet.Times(f).Norm2());
  }

  /**
   * Moving from `p` by `s` along `v / d`, where `v` is `p` or `-p` (`sign` 1 or -1),
   * scales `p` by `1 + sign (s / d)`.
   */
  lemma StepAlong(p: Vec3, v: Vec3, d: real, s: real, sign: real)
    requires d > 0.0 && (sign == 1.0 || sign == -1.0)
    requires v == Vec3(sign * p.x, sign * p.y, sign * p.z)
    ensures p.Plus(v.Times(1.0 / d).Times(s)) == p.Times(1.0 + sign * (s / d))
  {
    AxisStep(p.x, d, s, sign);
    AxisStep(p.y, d, s, sign);
    AxisStep(p.z, d, s, sign);
  }

  /** One coordinate of `p + (sign p / d) * s`, written as `p * (1 + sign (s / d))`. */
  lemma AxisStep(x: real, d: real, s: real, sign: real)
    requires d > 0.0
    ensures x + (sign * x * (1.0 / d)) * s == x * (1.0 + sign * (s / d))
  {
  }

  lemma PositiveRoot(d: real, n: real)
    requires d >= 0.0 && d * d == n && n > 0.0
    ensures d > 0.0
  {
    if d <= 0.0 {
      MulMono(d, d, 0.0);
    }
  }

  lemma QuotientAtMostOne(s: real, d: real)
    requires 0.0 < s <= d
    ensures 0.0 < s / d <= 1.0
  {
  }

  lemma ScaledBelow(f: real, n: real, m: real)
    requires 0.0 <= f < 1.0 && n > 0.0 && m == f * f * n
    ensures m < n
  {
    MulMono(f, f, 1.0);
    assert f * f < 1.0;
    MulMono(n, f * f, 1.0);
    assert n * (f * f) == f * f * n;
    if f * f * n == n {
      CancelPositive(1.0, f * f, n);
    }
  }

  lemma ScaledAbove(f: real, n: real, m: real)
    requires f > 1.0 && n > 0.0 && m == f * f * n
    ensures m > n
  {
    MulMono(f, 1.0, f);
    MulPos(f * f - 1.0, n);
    assert (f * f - 1.0) * n == f * f * n - n;
  }

  /** Colour slot `k` holds channel `k % 3` of the tail colour. */
  function TailColours(c: Rgb): seq<real> {
    seq(3 * ParticleCount, k => Channel(c, k % 3))
  }

  /** The size of a particle drawn with `u`: `Math.random() * 0.5 + 0.1`. */
  function ParticleSize(u: Unit): (r: real)
    ensures 0.1 <= r < 0.6
  {
    u * 0.5 + 0.1
  }

  /** Particle sizes, the i-th with the i-th draw. */
  function TailSizes(rand: Random): seq<real> {
    seq(ParticleCount, i requires 0 <= i => ParticleSize(rand(i)))
  }

  /** The `tailParticles` memo: a zeroed position buffer, colours and random sizes. */
  method MakeTail(tailColor: Rgb, rand: Random) returns (positions: array<real>, colors: array<real>, sizes: array<real>)
    ensures fresh(positions) && fresh(colors) && fresh(sizes)
    ensures positions != colors && positions != sizes
    ensures positions[..] == seq(3 * ParticleCount, _ => 0.0)
    ensures colors[..] == TailColours(tailColor)
    ensures sizes[..] == TailSizes(rand)
  {
    positions := new real[3 * ParticleCount];
    colors := new real[3 * ParticleCount];
    sizes := new real[ParticleCount];
    for i := 0 to ParticleCount
      invariant positions != colors && positions != sizes && colors != sizes
      invariant forall k :: 0 <= k < 3 * i ==> positions[k] == 0.0
      invariant forall k :: 0 <= k < 3 * i ==> colors[k] == Channel(tailColor, k % 3)
      invariant forall j :: 0 <= j < i ==> sizes[j] == ParticleSize(rand(j))
    {
      ghost var p0, c0, s0 := positions[..], colors[..], sizes[..];
      InitParticle(positions, colors, sizes, i, tailColor, rand);
      ZerosKept(p0, positions[..], i);
      ColoursKept(tailColor, c0, colors[..], i);
    }
  }

  /** One pass of the memo's loop: clear particle `i`, give it the tail colour and a random size. */
  method InitParticle(positions: array<real>, colors: array<real>, sizes: array<real>, i: nat, tailColor: Rgb, rand: Random)
    requires positions.Length == colors.Length == 3 * ParticleCount && sizes.Length == ParticleCount
    requires positions != colors && positions != sizes && colors != sizes
    requires i < ParticleCount
    modifies positions, colors, sizes
    ensures forall k :: 0 <= k < 3 * i ==> positions[k] == old(positions[k]) && colors[k] == old(colors[k])
    ensures forall j :: 0 <= j < i ==> sizes[j] == old(sizes[j])
    ensures positions[3 * i] == 0.0 && positions[3 * i + 1] == 0.0 && positions[3 * i + 2] == 0.0
    ensures colors[3 * i] == tailColor.r && colors[3 * i + 1] == tailColor.g && colors[3 * i + 2] == tailColor.b
    ensures sizes[i] == ParticleSize(rand(i))
  {
    var i3 := 3 * i;
    positions[i3] := 0.0;
    positions[i3 + 1] := 0.0;
    positions[i3 + 2] := 0.0;
    colors[i3] := tailColor.r;
    colors[i3 + 1] := tailColor.g;
    colors[i3 + 2] := tailColor.b;
    sizes[i] := rand(i) * 0.5 + 0.1;
  }

  /** Clearing particle `i` extends the cleared prefix of the buffer by its three slots. */
  lemma ZerosKept(before: seq<real>, after: seq<real>, i: nat)
    requires |before| == |after| == 3 * ParticleCount && i < ParticleCount
    requires forall k :: 0 <= k < 3 * i ==> before[k] == 0.0
    requires forall k :: 0 <= k < 3 * i ==> after[k] == before[k]
    requires after[3 * i] == 0.0 && after[3 * i + 1] == 0.0 && after[3 * i + 2] == 0.0
    ensures forall k :: 0 <= k < 3 * i + 3 ==> after[k] == 0.0
  {
  }

  /** Colouring particle `i` extends the coloured prefix of the buffer by its three slots. */
  lemma ColoursKept(c: Rgb, before: seq<real>, after: seq<real>, i: nat)
    requires |before| == |after| == 3 * ParticleCount && i < ParticleCount
    requires forall k :: 0 <= k < 3 * i ==> before[k] == Channel(c, k % 3)
    requires forall k :: 0 <= k < 3 * i ==> after[k] == before[k]
    requires after[3 * i] == c.r && after[3 * i + 1] == c.g && after[3 * i + 2] == c.b
    ensures forall k :: 0 <= k < 3 * i + 3 ==> after[k] == Channel(c, k % 3)
  {
    forall k | 0 <= k < 3 * i + 3
      ensures after[k] == Channel(c, k % 3)
    {
      if k == 3 * i {
        assert k % 3 == 0;
      } else if k == 3 * i + 1 {
        assert k % 3 == 1;
      } else if k == 3 * i + 2 {
        assert k % 3 == 2;
      }
    }
  }

  /**
   * The particle loop of a frame: for each of the `positions.length / 3` particles,
   * start at the comet, move along the tail, then add the three random offsets.
   */
  method WriteTail(positions: array<real>, comet: Vec3, dir: Vec3, len: real, rand: Random)
    requires positions.Length == 3 * ParticleCount
    modifies positions
    ensures positions[..] == TailPositions(comet, dir, len, rand)
  {
    var i := 0;
    while i < positions.Length / 3
      invariant 0 <= i <= ParticleCount
      invariant forall k :: 0 <= k < 3 * i ==> positions[k] == TailCoord(comet, dir, len, rand(k), k / 3, k % 3)
    {
      ghost var before := positions[..];
      WriteParticle(positions, i, comet, dir, len, rand);
      TailKept(comet, dir, len, rand, before, positions[..], i);
      i := i + 1;
    }
  }

  /** Writing particle `i` extends the written prefix of the buffer by its three slots. */
  lemma TailKept(comet: Vec3, dir: Vec3, len: real, rand: Random, before: seq<real>, after: seq<real>, i: nat)
    requires |before| == |after| == 3 * ParticleCount && i < ParticleCount
    requires forall k :: 0 <= k < 3 * i ==> before[k] == TailCoord(comet, dir, len, rand(k), k / 3, k % 3)
    requires forall k :: 0 <= k < 3 * i ==> after[k] == before[k]
    requires after[3 * i] == TailCoord(comet, dir, len, rand(3 * i), i, 0)
    requires after[3 * i + 1] == TailCoord(comet, dir, len, rand(3 * i + 1), i, 1)
    requires after[3 * i + 2] == TailCoord(comet, dir, len, rand(3 * i + 2), i, 2)
    ensures forall k :: 0 <= k < 3 * i + 3 ==> after[k] == TailCoord(comet, dir, len, rand(k), k / 3, k % 3)
  {
    forall k | 0 <= k < 3 * i + 3
      ensures after[k] == TailCoord(comet, dir, len, rand(k), k / 3, k % 3)
    {
      if k == 3 * i {
        assert k / 3 == i && k % 3 == 0;
      } else if k == 3 * i + 1 {
        assert k / 3 == i && k % 3 == 1;
      } else if k == 3 * i + 2 {
        assert k / 3 == i && k % 3 == 2;
      }
    }
  }

  /**
   * The orbit block of a frame: the radius for the current phase, then x, y and z.
   * The point lies between the perihelion and aphelion spheres, and its distance from
   * the sun is the conic radius for the phase.
   */
  method ComputePosition(math: MathLib, perihelion: real, aphelion: real, inclination: real, angle: real)
    returns (x: real, y: real, z: real)
    requires math.Lawful() && 0.0 < perihelion <= aphelion
    ensures Vec3(x, y, z) == OrbitPosition(math, perihelion, aphelion, inclination, angle)
    ensures perihelion * perihelion <= x * x + y * y + z * z <= aphelion * aphelion
    ensures -1.0 <= math.cos(angle) <= 1.0
    ensures math.sqrt(x * x + y * y + z * z) == OrbitRadius(perihelion, aphelion, math.cos(angle))
  {
    CosSinBounded(math, angle);
    var r := OrbitRadius(perihelion, aphelion, math.cos(angle));
    x := r * math.cos(angle);
    y := r * math.sin(angle) * math.sin(inclination);
    z := r * math.sin(angle) * math.cos(inclination);
    PositionAtRadius(math, r, angle, inclination, x, y, z);
    PositionOnOrbit(math, perihelion, aphelion, inclination, angle);
    DistanceIsRadius(math, perihelion, aphelion, inclination, angle);
    assert Vec3(x, y, z).Norm2() == x * x + y * y + z * z;
  }

  lemma PositionAtRadius(m: MathLib, r: real, angle: real, inclination: real, x: real, y: real, z: real)
    requires x == r * m.cos(angle)
    requires y == r * m.sin(angle) * m.sin(inclination)
    requires z == r * m.sin(angle) * m.cos(inclination)
    ensures Vec3(x, y, z) == CometPosition(m, r, angle, inclination)
  {
  }

  /**
   * The tail block of a frame for a comet at `comet`: distance from the sun, current
   * tail length, direction `(-x, -y, -z)` normalised, then the particle loop.
   */
  method UpdateTail(math: MathLib, positions: array<real>, comet: Vec3, tailLength: real, aphelion: real, rand: Random)
    requires positions.Length == 3 * ParticleCount && aphelion > 0.0
    modifies positions
    ensures positions[..] == TailPositions(comet, TailDirection(math, comet),
                                           CurrentTailLength(tailLength, math.sqrt(comet.Norm2()), aphelion), rand)
  {
    var x, y, z := comet.x, comet.y, comet.z;
    assert comet.Norm2() == x * x + y * y + z * z;
    var distanceFromSun := math.sqrt(x * x + y * y + z * z);
    var currentTailLength := tailLength * (1.0 - Min(1.0, distanceFromSun / aphelion) * 0.7);
    assert currentTailLength == CurrentTailLength(tailLength, math.sqrt(comet.Norm2()), aphelion);
    var tailDirection := Normalize(math, Vec3(-x, -y, -z));
    WriteTail(positions, comet, tailDirection, currentTailLength, rand);
  }

  /** One iteration of the particle loop: the three coordinates of particle `i`. */
  method WriteParticle(positions: array<real>, i: nat, comet: Vec3, dir: Vec3, len: real, rand: Random)
    requires positions.Length == 3 * ParticleCount && i < ParticleCount
    modifies positions
    ensures forall k :: 0 <= k < 3 * i ==> positions[k] == old(positions[k])
    ensures positions[3 * i] == TailCoord(comet, dir, len, rand(3 * i), i, 0)
    ensures positions[3 * i + 1] == TailCoord(comet, dir, len, rand(3 * i + 1), i, 1)
    ensures positions[3 * i + 2] == TailCoord(comet, dir, len, rand(3 * i + 2), i, 2)
  {
    var i3 := 3 * i;
    var ratio := i as real / (positions.Length / 3) as real;
    assert ratio == Ratio(i);
    var px, py, pz := comet.x, comet.y, comet.z;
    px := px + dir.x * len * ratio;
    py := py + dir.y * len * ratio;
    pz := pz + dir.z * len * ratio;
    px := px + (rand(i3) - 0.5) * ratio * 0.5;
    py := py + (rand(i3 + 1) - 0.5) * ratio * 0.5;
    pz := pz + (rand(i3 + 2) - 0.5) * ratio * 0.5;
    positions[i3] := px;
    positions[i3 + 1] := py;
    positions[i3 + 2] := pz;
  }

  // ---------------------------------------------------------------------------
  // The component's per-frame state
  // ---------------------------------------------------------------------------

  class Comet {
    const math: MathLib
    const perihelion: real
    const aphelion: real
    const orbitSpeed: real
    const rotationSpeed: real
    const initialAngle: real
    const tailLength: real
    const tailColor: Rgb
    const inclination: real
    /** The `position` prop the comet group starts at. */
    const start: Vec3
    const positions: array<real>
    const colors: array<real>
    const sizes: array<real>

    /** The `angle` ref. */
    var angle: real
    /** `cometRef.current.position`. */
    var position: Vec3
    /** `cometRef.current.rotation.y`. */
    var rotationY: real
    /** Frames on which both refs were mounted. */
    ghost var frames: nat

    ghost predicate Valid()
      reads this, colors, sizes
    {
      Shape() && Buffers() && Phase()
    }

    /** The fixed parameters and buffer sizes. */
    ghost predicate Shape() {
      && math.Lawful()
      && 0.0 < perihelion <= aphelion
      && positions.Length == 3 * ParticleCount
      && colors.Length == 3 * ParticleCount
      && sizes.Length == ParticleCount
      && positions != colors && positions != sizes
    }

    /** Colours and sizes, which no frame writes. */
    ghost predicate Buffers()
      reads colors, sizes
    {
      && colors[..] == TailColours(tailColor)
      && (forall i :: 0 <= i < sizes.Length ==> 0.1 <= sizes[i] < 0.6)
    }

    /** The phase, spin and position after `frames` mounted frames. */
    ghost predicate Phase()
      reads this
      requires Shape()
    {
      && angle == initialAngle + Accumulated(frames, orbitSpeed)
      && rotationY == Accumulated(frames, rotationSpeed)
      && position == (if frames == 0 then start else OrbitPosition(math, perihelion, aphelion, inclination, angle))
    }

    constructor (math: MathLib, perihelion: real, aphelion: real, orbitSpeed: real, rotationSpeed: real,
                 initialAngle: real, tailLength: real, tailColor: Rgb, inclination: real, start: Vec3,
                 rand: Random)
      requires math.Lawful() && 0.0 < perihelion <= aphelion
      ensures Valid() && frames == 0
      ensures this.math == math && this.perihelion == perihelion && this.aphelion == aphelion
      ensures this.orbitSpeed == orbitSpeed && this.rotationSpeed == rotationSpeed
      ensures this.initialAngle == initialAngle && this.tailLength == tailLength
      ensures this.tailColor == tailColor && this.inclination == inclination && this.start == start
      ensures angle == initialAngle && position == start && rotationY == 0.0
      ensures fresh(positions) && fresh(colors) && fresh(sizes)
      ensures positions[..] == seq(3 * ParticleCount, _ => 0.0)
      ensures sizes[..] == TailSizes(rand)
    {
      this.math := math;
      this.perihelion := perihelion;
      this.aphelion := aphelion;
      this.orbitSpeed := orbitSpeed;
      this.rotationSpeed := rotationSpeed;
      this.initialAngle := initialAngle;
      this.tailLength := tailLength;
      this.tailColor := tailColor;
      this.inclination := inclination;
      this.start := start;
      var p, c, s := MakeTail(tailColor, rand);
      positions, colors, sizes := p, c, s;
      angle := initialAngle;
      position := start;
      rotationY := 0.0;
      frames := 0;
    }

    /**
     * One `useFrame` callback. Nothing happens unless the group and the comet are
     * mounted; the tail buffer is rewritten only when the tail is mounted as well.
     * `rand` supplies the frame's `Math.random()` draws.
     */
    method Frame(groupMounted: bool, cometMounted: bool, tailMounted: bool, rand: Random)
      requires Valid()
      modifies this, positions
      ensures Valid()
      ensures unchanged(colors) && unchanged(sizes)
      ensures !(groupMounted && cometMounted) ==> unchanged(this) && unchanged(positions)
      ensures groupMounted && cometMounted ==>
        && frames == old(frames) + 1
        && angle == old(angle) + orbitSpeed
        && position == OrbitPosition(math, perihelion, aphelion, inclination, angle)
        && rotationY == old(rotationY) + rotationSpeed
      ensures groupMounted && cometMounted && tailMounted ==>
        positions[..] == TailPositions(position, TailDirection(math, position),
                                       CurrentTailLength(tailLength, math.sqrt(position.Norm2()), aphelion), rand)
      ensures !(groupMounted && cometMounted && tailMounted) ==> unchanged(positions)
    {
      if groupMounted && cometMounted {
        angle := angle + orbitSpeed;
        var x, y, z := ComputePosition(math, perihelion, aphelion, inclination, angle);
        position := Vec3(x, y, z);
        rotationY := rotationY + rotationSpeed;
        frames := frames + 1;
        if tailMounted {
          UpdateTail(math, positions, position, tailLength, aphelion, rand);
        }
      }
    }

    /** The 129 points of the drawn orbit path, at phases `2 PI i / 128`. */
    method OrbitPath() returns (points: seq<Vec3>)
      requires Shape()
      ensures |points| == OrbitSegments + 1
      ensures forall i :: 0 <= i < |points| ==>
        points[i] == OrbitPosition(math, perihelion, aphelion, inclination, PathAngle(i))
      ensures forall i :: 0 <= i < |points| ==>
        perihelion * perihelion <= points[i].Norm2() <= aphelion * aphelion
    {
      points := [];
      for i := 0 to OrbitSegments + 1
        invariant |points| == i
        invariant forall j :: 0 <= j < i ==>
          points[j] == OrbitPosition(math, perihelion, aphelion, inclination, PathAngle(j))
        invariant forall j :: 0 <= j < i ==>
          perihelion * perihelion <= points[j].Norm2() <= aphelion * aphelion
      {
        var theta := (i as real / OrbitSegments as real) * PI * 2.0;
        var x, y, z := ComputePosition(math, perihelion, aphelion, inclination, theta);
        ghost var p := Vec3(x, y, z);
        assert theta == PathAngle(i);
        assert p == OrbitPosition(math, perihelion, aphelion, inclination, PathAngle(i));
        assert p.Norm2() == x * x + y * y + z * z;
        assert perihelion * perihelion <= p.Norm2() <= aphelion * aphelion;
        ghost var before := points;
        points := points + [Vec3(x, y, z)];
        assert forall j :: 0 <= j < i ==> points[j] == before[j];
        assert points[i] == p;
      }
    }
  }
}
