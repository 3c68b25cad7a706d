/**
 * Shared vocabulary of the model: option/result wrappers, the random draws that
 * stand in for `Math.random()`, three-component vectors and colours, and the
 * `Math` functions (cos, sin, sqrt, cbrt, acos) the scene code calls.
 *
 * Dafny has no real-valued trigonometry, so `Math` is a value of type `MathLib`
 * whose functions are unknown apart from the laws in `Lawful()`: every property
 * proved in this model holds for any functions obeying those laws exactly. The
 * JavaScript functions, computing in floating point on the decimal `Math.PI`, meet
 * them only up to rounding.
 */
module Common {

  datatype Option<+T> = None | Some(value: T) {
    function GetOr(default: T): T {
      match this
      case Some(v) => v
      case None => default
    }
  }

  datatype Result<+T, +E> = Ok(value: T) | Err(error: E)

  /** One result of `Math.random()`: a real in [0, 1). */
  type Unit = u: real | 0.0 <= u < 1.0

  /** A stream of `Math.random()` results; `rand(k)` is the k-th draw. */
  type Random = nat -> Unit

  /** The draws of `rand` from position `offset` on. */
  function Slice(rand: Random, offset: nat): (r: Random)
    ensures forall k: nat :: r(k) == rand(offset + k)
  {
    k => rand(offset + k)
  }

  /** `Math.PI`. */
  const PI: real := 3.141592653589793

  datatype Vec3 = Vec3(x: real, y: real, z: real) {
    function Plus(o: Vec3): Vec3 {
      Vec3(x + o.x, y + o.y, z + o.z)
    }
    function Minus(o: Vec3): Vec3 {
      Vec3(x - o.x, y - o.y, z - o.z)
    }
    function Times(k: real): Vec3 {
      Vec3(x * k, y * k, z * k)
    }
    /** The squared Euclidean length. */
    function Norm2(): (n: real)
      ensures n >= 0.0
    {
      x * x + y * y + z * z
    }
  }

  const Origin: Vec3 := Vec3(0.0, 0.0, 0.0)

  /** Component `axis` of a vector, as it is laid out in a flat xyz buffer. */
  function Coord(v: Vec3, axis: nat): real
    requires axis < 3
  {
    if axis == 0 then v.x else if axis == 1 then v.y else v.z
  }

  /** A colour as three.js keeps it: red, green and blue channels. */
  datatype Rgb = Rgb(r: real, g: real, b: real)

  /** Channel `j` of a colour, as it is laid out in a flat rgb buffer. */
  function Channel(c: Rgb, j: nat): real {
    if j == 0 then c.r else if j == 1 then c.g else c.b
  }

  /** The JavaScript `Math` functions the scene uses. */
  datatype MathLib = MathLib(
    cos: real -> real,
    sin: real -> real,
    sqrt: real -> real,
    cbrt: real -> real,
    acos: real -> real)
  {
    /** The laws of the real functions that the properties of this model rely on. */
    ghost predicate Lawful() {
      && (forall a :: cos(a) * cos(a) + sin(a) * sin(a) == 1.0)
      && cos(0.0) == 1.0
      && cos(PI) == -1.0
      && (forall x :: 0.0 <= x ==> 0.0 <= sqrt(x) && sqrt(x) * sqrt(x) == x)
      && (forall u :: 0.0 <= u < 1.0 ==> 0.0 <= cbrt(u) < 1.0)
      && (forall v :: -1.0 <= v <= 1.0 ==> 0.0 <= acos(v) <= PI)
    }
  }

  /** `Math.min`. */
  function Min(a: real, b: real): (r: real)
    ensures r <= a && r <= b && (r == a || r == b)
  {
    if a <= b then a else b
  }

  /** `Math.max`. */
  function Max(a: real, b: real): (r: real)
    ensures r >= a && r >= b && (r == a || r == b)
  {
    if a >= b then a else b
  }

  /** `Math.max(lo, Math.min(hi, v))`, the clamp idiom of the source. */
  function Clamp(lo: real, hi: real, v: real): (r: real)
    requires lo <= hi
    ensures lo <= r <= hi
    ensures lo <= v <= hi ==> r == v
    ensures v < lo ==> r == lo
    ensures v > hi ==> r == hi
  {
    Max(lo, Min(hi, v))
  }

  /** `a.lerp(b, t)` of three.js on one channel. */
  function Lerp(a: real, b: real, t: real): real {
    a + (b - a) * t
  }

  /** `v` lies on the closed segment between `a` and `b`, in either order. */
  predicate Between(a: real, b: real, v: real) {
    (a <= v <= b) || (b <= v <= a)
  }

  lemma LerpBetween(a: real, b: real, t: real)
    requires 0.0 <= t <= 1.0
    ensures Between(a, b, Lerp(a, b, t))
  {
    if a <= b {
      var x := b - a;
      ScaleBetween(x, t);
      assert Lerp(a, b, t) == a + x * t;
    } else {
      var x := a - b;
      ScaleBetween(x, t);
      assert (b - a) * t == -(x * t);
    }
  }

  lemma CosSinBounded(m: MathLib, a: real)
    requires m.Lawful()
    ensures -1.0 <= m.cos(a) <= 1.0
    ensures -1.0 <= m.sin(a) <= 1.0
  {
    var c, s := m.cos(a), m.sin(a);
    assert c * c + s * s == 1.0;
    assert c * c <= 1.0 && s * s <= 1.0;
  }

  /** The square root of the square `n` of a non-negative `r` is `r`. */
  lemma SqrtOfSquare(m: MathLib, n: real, r: real)
    requires m.Lawful()
    requires r >= 0.0 && n == r * r
    ensures m.sqrt(n) == r
  {
    var s := m.sqrt(n);
    assert s >= 0.0 && s * s == r * r;
    SquareInjective(s, r);
  }

  /** Scaling a non-negative quantity by a factor in [0, 1] keeps it between 0 and itself. */
  lemma ScaleBetween(x: real, t: real)
    requires x >= 0.0 && 0.0 <= t <= 1.0
    ensures 0.0 <= x * t <= x
  {
    assert x - x * t == x * (1.0 - t);
  }

  lemma MulPos(a: real, b: real)
    requires a > 0.0 && b > 0.0
    ensures a * b > 0.0
  {
  }

  lemma SquarePositive(x: real)
    requires x != 0.0
    ensures x * x > 0.0
  {
    if x > 0.0 {
      MulPos(x, x);
    } else {
      MulPos(-x, -x);
      assert (-x) * (-x) == x * x;
    }
  }

  /** Two non-negative reals with equal squares are equal. */
  lemma SquareInjective(a: real, b: real)
    requires a >= 0.0 && b >= 0.0 && a * a == b * b
    ensures a == b
  {
    assert (a - b) * (a + b) == a * a - b * b;
    if a != b {
      if a > b { MulPos(a - b, a + b); } else { MulPos(b - a, a + b); }
    }
  }

  /** A vector scaled by two real factors has its squared length scaled by their squares. */
  lemma Norm2Scaled(v: Vec3, k: real)
    ensures v.Times(k).Norm2() == k * k * v.Norm2()
  {
  }

  /** three.js `Vector3.normalize()`: divides by the length, or by 1 when the length is 0. */
  function Normalize(m: MathLib, v: Vec3): Vec3 {
    var len := m.sqrt(v.Norm2());
    v.Times(1.0 / (if len == 0.0 then 1.0 else len))
  }

  lemma NormalizeUnit(m: MathLib, v: Vec3)
    requires m.Lawful()
    requires v.Norm2() > 0.0
    ensures Normalize(m, v).Norm2() == 1.0
  {
    var n := v.Norm2();
    var len := m.sqrt(n);
    assert len * len == n;
    assert len != 0.0;
    Norm2Scaled(v, 1.0 / len);
    assert (1.0 / len) * (1.0 / len) * n == 1.0;
  }

  lemma MulBound(e: real, c: real)
    requires 0.0 <= e && -1.0 <= c <= 1.0
    ensures -e <= e * c <= e
  {
    assert e * c + e == e * (c + 1.0);
    assert e - e * c == e * (1.0 - c);
  }

  lemma MulMono(k: real, x: real, y: real)
    requires k >= 0.0 && x <= y
    ensures k * x <= k * y
  {
    assert k * y - k * x == k * (y - x);
  }

  /** Dividing both sides of `x k <= y k` by a positive `k`. */
  lemma CancelPositive(x: real, y: real, k: real)
    requires k > 0.0 && x * k <= y * k
    ensures x <= y
  {
    assert (y - x) * k >= 0.0;
    if x > y { MulPos(x - y, k); }
  }

  lemma SquareBetween(p: real, r: real, a: real, n: real)
    requires 0.0 < p <= r <= a && n == r * r
    ensures p * p <= n <= a * a
  {
    MulMono(p, p, r);
    MulMono(r, p, r);
    MulMono(r, r, a);
    MulMono(a, r, a);
  }

  /**
   * The value a per-frame accumulator has gained after `n` increments of `step`
   * (`ref.current += step` once per frame).
   */
  function Accumulated(n: nat, step: real): real {
    if n == 0 then 0.0 else Accumulated(n - 1, step) + step
  }

  /** After `n` frames an accumulator has gained exactly `n * step`. */
  lemma {:induction false} AccumulatedIsProduct(n: nat, step: real)
    ensures Accumulated(n, step) == n as real * step
  {
    if n > 0 {
      AccumulatedIsProduct(n - 1, step);
      assert n as real * step == (n - 1) as real * step + step;
    }
  }

  /**
   * `ref.position.x = Math.cos(angle) * radius; ref.position.z = Math.sin(angle) * radius`:
   * the point at `angle` on the circle of `radius` in the xz plane, keeping `p.y`.
   */
  function PlaceOnCircle(m: MathLib, p: Vec3, angle: real, radius: real): Vec3 {
    Vec3(m.cos(angle) * radius, p.y, m.sin(angle) * radius)
  }

  /** Writes the x and z coordinates of `p` as `PlaceOnCircle` says, one after the other. */
  method MoveOnCircle(m: MathLib, p: Vec3, angle: real, radius: real) returns (q: Vec3)
    ensures q == PlaceOnCircle(m, p, angle, radius)
  {
    q := p.(x := m.cos(angle) * radius);
    q := q.(z := m.sin(angle) * radius);
  }

  /** `x = a cos(angle)` and `z = a sin(angle)` make `x^2 + z^2 = a^2`. */
  lemma CircleSquares(m: MathLib, angle: real, a: real, x: real, z: real)
    requires m.Lawful() && x == a * m.cos(angle) && z == a * m.sin(angle)
    ensures x * x + z * z == a * a
  {
    var c, s := m.cos(angle), m.sin(angle);
    assert x * x + z * z == a * a * (c * c + s * s);
  }

  /** The placed point is at distance `radius` from the y axis, at the height it had. */
  lemma PlaceOnCircleDistance(m: MathLib, p: Vec3, angle: real, radius: real)
    requires m.Lawful()
    ensures PlaceOnCircle(m, p, angle, radius).y == p.y
    ensures PlaceOnCircle(m, p, angle, radius).x * PlaceOnCircle(m, p, angle, radius).x
          + PlaceOnCircle(m, p, angle, radius).z * PlaceOnCircle(m, p, angle, radius).z
         == radius * radius
  {
    var c, s := m.cos(angle), m.sin(angle);
    assert c * radius * (c * radius) + s * radius * (s * radius) == radius * radius * (c * c + s * s);
    assert c * c + s * s == 1.0;
  }
}
