/**
 * The `BackgroundStars` component: `count` points scattered in a ball of radius
 * `radius` around the scene, each with a brightness and one of three star colours.
 * The generator draws from `Math.random()` five or six times per star: the
 * second colour test is only made when the first one fails.
 */
module Stars {
  import opened Common

  /** The three kinds of star the colour test picks from. */
  datatype Kind = Yellowish | White | BluishWhite

  datatype Star = Star(position: Vec3, kind: Kind, brightness: real, color: Rgb)

  /** How many draws the star whose draws start at `cursor` takes: five for a yellowish star, six otherwise. */
  function DrawsUsed(rand: Random, cursor: nat): nat {
    if rand(cursor + 4) > 0.8 then 5 else 6
  }

  /** The position in the draw stream at which star `i` starts. */
  function Cursor(rand: Random, i: nat): nat {
    if i == 0 then 0 else Cursor(rand, i - 1) + DrawsUsed(rand, Cursor(rand, i - 1))
  }

  /** Stars consume between five and six draws each. */
  lemma {:induction false} CursorBounds(rand: Random, i: nat)
    ensures 5 * i <= Cursor(rand, i) <= 6 * i
  {
    if i > 0 {
      CursorBounds(rand, i - 1);
    }
  }

  /** The colour test: yellowish if the first test draw exceeds 0.8, else white if a second draw exceeds 0.6, else bluish white. */
  function KindOf(first: Unit, second: Unit): Kind {
    if first > 0.8 then Yellowish else if second > 0.6 then White else BluishWhite
  }

  /** `color.setRGB(...)` for each kind of star. */
  function KindColour(kind: Kind, b: real): Rgb {
    match kind
    case Yellowish => Rgb(b, b * 0.9, b * 0.6)
    case White => Rgb(b, b, b)
    case BluishWhite => Rgb(b * 0.8, b * 0.9, b)
  }

  /** `r * sin(phi) * cos(theta)`, `r * sin(phi) * sin(theta)`, `r * cos(phi)`. */
  function Spherical(m: MathLib, r: real, theta: real, phi: real): Vec3 {
    Vec3(r * m.sin(phi) * m.cos(theta), r * m.sin(phi) * m.sin(theta), r * m.cos(phi))
  }

  /** `Math.acos(2 * u - 1)`: the polar angle. */
  function Polar(m: MathLib, u: Unit): real {
    m.acos(2.0 * u - 1.0)
  }

  /** `radius * Math.cbrt(u)`: the distance from the centre. */
  function StarRadius(m: MathLib, radius: real, u: Unit): real {
    radius * m.cbrt(u)
  }

  /** `0.5 + Math.random() * 0.5`. */
  function Brightness(u: Unit): (b: real)
    ensures 0.5 <= b < 1.0
  {
    0.5 + u * 0.5
  }

  /** The star whose draws start at `cursor`. */
  function MakeStar(m: MathLib, radius: real, rand: Random, cursor: nat): Star {
    var theta := 2.0 * PI * rand(cursor);
    var phi := Polar(m, rand(cursor + 1));
    var r := StarRadius(m, radius, rand(cursor + 2));
    var b := Brightness(rand(cursor + 3));
    var kind := KindOf(rand(cursor + 4), rand(cursor + 5));
    Star(Spherical(m, r, theta, phi), kind, b, KindColour(kind, b))
  }

  /** Star `i` of a field generated from the draw stream `rand`. */
  function StarAt(m: MathLib, radius: real, rand: Random, i: nat): Star {
    MakeStar(m, radius, rand, Cursor(rand, i))
  }

  /** A star is at distance `radius * cbrt(u)` from the centre. */
  lemma StarDistance(m: MathLib, radius: real, rand: Random, cursor: nat)
    requires m.Lawful()
    ensures MakeStar(m, radius, rand, cursor).position.Norm2()
         == StarRadius(m, radius, rand(cursor + 2)) * StarRadius(m, radius, rand(cursor + 2))
  {
    SphereSquares(m, StarRadius(m, radius, rand(cursor + 2)), 2.0 * PI * rand(cursor), Polar(m, rand(cursor + 1)));
  }

  /** The distance `radius * cbrt(u)` is below `radius`, and the polar angle is in [0, PI]. */
  lemma StarRanges(m: MathLib, radius: real, u: Unit, v: Unit)
    requires m.Lawful() && radius > 0.0
    ensures 0.0 <= StarRadius(m, radius, u) < radius
    ensures 0.0 <= Polar(m, v) <= PI
  {
    var c := m.cbrt(u);
    assert 0.0 <= c < 1.0;
    MulMono(radius, 0.0, c);
    assert radius - radius * c == radius * (1.0 - c);
    MulPos(radius, 1.0 - c);
  }

  /** A point given in spherical coordinates is at distance `r` from the centre. */
  lemma SphereSquares(m: MathLib, r: real, theta: real, phi: real)
    requires m.Lawful()
    ensures Spherical(m, r, theta, phi).Norm2() == r * r
  {
    var p := Spherical(m, r, theta, phi);
    var a := r * m.sin(phi);
    CircleSquares(m, theta, a, p.x, p.y);
    CircleSquares(m, phi, r, p.z, a);
    assert p.Norm2() == (p.x * p.x + p.y * p.y) + p.z * p.z;
  }

  /**
   * The colour of a star: yellowish exactly when the first test draw exceeds 0.8,
   * white exactly when it does not and the second one exceeds 0.6; every channel in
   * [0.3, 1).
   */
  lemma StarColour(m: MathLib, radius: real, rand: Random, cursor: nat)
    ensures var s := MakeStar(m, radius, rand, cursor);
      && (s.kind == Yellowish <==> rand(cursor + 4) > 0.8)
      && (s.kind == White <==> rand(cursor + 4) <= 0.8 && rand(cursor + 5) > 0.6)
      && 0.5 <= s.brightness < 1.0
      && 0.3 <= s.color.r < 1.0 && 0.3 <= s.color.g < 1.0 && 0.3 <= s.color.b < 1.0
  {
    var s := MakeStar(m, radius, rand, cursor);
    ChannelsInRange(s.kind, s.brightness);
  }

  lemma ChannelsInRange(kind: Kind, b: real)
    requires 0.5 <= b < 1.0
    ensures var c := KindColour(kind, b);
      0.3 <= c.r < 1.0 && 0.3 <= c.g < 1.0 && 0.3 <= c.b < 1.0
  {
  }

  /** The position buffer: slot `k` holds coordinate `k % 3` of star `k / 3`. */
  function StarPositions(m: MathLib, radius: real, count: nat, rand: Random): (s: seq<real>)
    ensures |s| == 3 * count
  {
    seq(3 * count, k requires 0 <= k => Coord(StarAt(m, radius, rand, k / 3).position, k % 3))
  }

  /** The colour buffer: slot `k` holds channel `k % 3` of star `k / 3`. */
  function StarColours(m: MathLib, radius: real, count: nat, rand: Random): (s: seq<real>)
    ensures |s| == 3 * count
  {
    seq(3 * count, k requires 0 <= k => Channel(StarAt(m, radius, rand, k / 3).color, k % 3))
  }

  /**
   * The body of the generation loop: draws taken one after the other from
   * `cursor` on, the second colour test only when the first fails.
   */
  method ComputeStar(m: MathLib, radius: real, rand: Random, cursor: nat) returns (s: Star, next: nat)
    ensures s == MakeStar(m, radius, rand, cursor)
    ensures next == cursor + DrawsUsed(rand, cursor)
  {
    next := cursor;
    var theta := 2.0 * PI * rand(next);
    next := next + 1;
    var phi := m.acos(2.0 * rand(next) - 1.0);
    next := next + 1;
    var r := radius * m.cbrt(rand(next));
    next := next + 1;
    var position := Vec3(r * m.sin(phi) * m.cos(theta), r * m.sin(phi) * m.sin(theta), r * m.cos(phi));
    var brightness := 0.5 + rand(next) * 0.5;
    next := next + 1;
    var color: Rgb;
    var kind: Kind;
    var first := rand(next);
    next := next + 1;
    if first > 0.8 {
      kind, color := Yellowish, Rgb(brightness, brightness * 0.9, brightness * 0.6);
    } else {
      var second := rand(next);
      next := next + 1;
      if second > 0.6 {
        kind, color := White, Rgb(brightness, brightness, brightness);
      } else {
        kind, color := BluishWhite, Rgb(brightness * 0.8, brightness * 0.9, brightness);
      }
    }
    s := Star(position, kind, brightness, color);
  }

  /** Slots `3i`, `3i+1`, `3i+2` of the two buffers hold the position and the colour of `s`. */
  ghost predicate StarIn(positions: seq<real>, colors: seq<real>, i: nat, s: Star) {
    && 3 * i + 2 < |positions| && 3 * i + 2 < |colors|
    && positions[3 * i] == s.position.x && positions[3 * i + 1] == s.position.y && positions[3 * i + 2] == s.position.z
    && colors[3 * i] == s.color.r && colors[3 * i + 1] == s.color.g && colors[3 * i + 2] == s.color.b
  }

  /** Writes star `i` into both buffers. */
  method WriteStar(positions: array<real>, colors: array<real>, i: nat, s: Star)
    requires positions != colors && 3 * i + 2 < positions.Length && 3 * i + 2 < colors.Length
    modifies positions, colors
    ensures positions[..3 * i] == old(positions[..3 * i]) && colors[..3 * i] == old(colors[..3 * i])
    ensures StarIn(positions[..], colors[..], i, s)
  {
    var i3 := i * 3;
    positions[i3] := s.position.x;
    positions[i3 + 1] := s.position.y;
    positions[i3 + 2] := s.position.z;
    colors[i3] := s.color.r;
    colors[i3 + 1] := s.color.g;
    colors[i3 + 2] := s.color.b;
  }

  /**
   * The memoised generator: two fresh buffers of `3 * count` slots, every slot
   * written once, star by star, each star continuing the draw stream where the
   * previous one stopped.
   */
  method Generate(m: MathLib, count: nat, radius: real, rand: Random)
    returns (positions: array<real>, colors: array<real>)
    ensures fresh(positions) && fresh(colors) && positions != colors
    ensures positions[..] == StarPositions(m, radius, count, rand)
    ensures colors[..] == StarColours(m, radius, count, rand)
  {
    positions := new real[count * 3];
    colors := new real[count * 3];
    var cursor := 0;
    for i := 0 to count
      invariant cursor == Cursor(rand, i)
      invariant forall j :: 0 <= j < i ==> StarIn(positions[..], colors[..], j, StarAt(m, radius, rand, j))
    {
      ghost var before, beforeColours := positions[..], colors[..];
      cursor := GenerateStar(m, radius, rand, positions, colors, i, cursor);
      StarsKept(m, radius, rand, before, beforeColours, positions[..], colors[..], i);
    }
    BuffersFromStars(m, radius, count, rand, positions[..], colors[..]);
  }

  /** One iteration of the generation loop: star `i`, computed and written. */
  method GenerateStar(m: MathLib, radius: real, rand: Random, positions: array<real>, colors: array<real>,
                      i: nat, cursor: nat) returns (next: nat)
    requires positions != colors && 3 * i + 2 < positions.Length && 3 * i + 2 < colors.Length
    requires cursor == Cursor(rand, i)
    modifies positions, colors
    ensures next == Cursor(rand, i + 1)
    ensures positions[..3 * i] == old(positions[..3 * i]) && colors[..3 * i] == old(colors[..3 * i])
    ensures StarIn(positions[..], colors[..], i, StarAt(m, radius, rand, i))
  {
    var s;
    s, next := ComputeStar(m, radius, rand, cursor);
    WriteStar(positions, colors, i, s);
  }

  /** Rewriting slots from `3i` on keeps stars `0 .. i-1` in place, and star `i` joins them. */
  lemma StarsKept(m: MathLib, radius: real, rand: Random, positions: seq<real>, colors: seq<real>,
                  positions': seq<real>, colors': seq<real>, i: nat)
    requires |positions| == |positions'| && |colors| == |colors'| && 3 * i <= |positions| && 3 * i <= |colors|
    requires positions[..3 * i] == positions'[..3 * i] && colors[..3 * i] == colors'[..3 * i]
    requires forall j :: 0 <= j < i ==> StarIn(positions, colors, j, StarAt(m, radius, rand, j))
    requires StarIn(positions', colors', i, StarAt(m, radius, rand, i))
    ensures forall j :: 0 <= j < i + 1 ==> StarIn(positions', colors', j, StarAt(m, radius, rand, j))
  {
    forall j | 0 <= j < i
      ensures StarIn(positions', colors', j, StarAt(m, radius, rand, j))
    {
      assert 3 * j + 2 < 3 * i;
      assert StarIn(positions, colors, j, StarAt(m, radius, rand, j));
      assert positions[..3 * i][3 * j] == positions'[..3 * i][3 * j];
      assert positions[..3 * i][3 * j + 1] == positions'[..3 * i][3 * j + 1];
      assert positions[..3 * i][3 * j + 2] == positions'[..3 * i][3 * j + 2];
      assert colors[..3 * i][3 * j] == colors'[..3 * i][3 * j];
      assert colors[..3 * i][3 * j + 1] == colors'[..3 * i][3 * j + 1];
      assert colors[..3 * i][3 * j + 2] == colors'[..3 * i][3 * j + 2];
    }
  }

  /** Two buffers holding star `j` at slots `3j`, `3j+1`, `3j+2` for every `j` are the generated buffers. */
  lemma BuffersFromStars(m: MathLib, radius: real, count: nat, rand: Random, positions: seq<real>, colors: seq<real>)
    requires |positions| == 3 * count && |colors| == 3 * count
    requires forall j :: 0 <= j < count ==> StarIn(positions, colors, j, StarAt(m, radius, rand, j))
    ensures positions == StarPositions(m, radius, count, rand)
    ensures colors == StarColours(m, radius, count, rand)
  {
    forall k | 0 <= k < 3 * count
      ensures positions[k] == StarPositions(m, radius, count, rand)[k]
      ensures colors[k] == StarColours(m, radius, count, rand)[k]
    {
      var j := k / 3;
      assert StarIn(positions, colors, j, StarAt(m, radius, rand, j));
      assert k == 3 * j + k % 3;
    }
  }
}
