/**
 * The `SolarSystemSimulation` component: the `planetData` catalogue of the Sun and
 * eight planets, and the props it derives from each entry for the `Planet`,
 * `SaturnRings`, `EarthClouds`, moon, `Asteroid` and `Comet` components.
 */
module SolarSystem {
  import opened Common
  import Planets

  datatype Moon = Moon(name: string, size: real, orbitRadius: real, orbitSpeed: real,
                       rotationSpeed: real, color: string, texture: string)

  datatype Rings = Rings(innerRadius: real, outerRadius: real, texture: string)

  /** One `planetData` entry; the optional fields are absent from some entries. */
  datatype Body = Body(
    name: string, size: real, orbitRadius: real, orbitSpeed: real, rotationSpeed: real,
    color: string, texture: string,
    initialAngle: Option<real>, tilt: Option<real>, emissive: Option<bool>, special: Option<string>,
    moons: seq<Moon>, rings: Option<Rings>)

  /** The props a `Planet` element receives (its `position` prop is never passed and stays at the origin). */
  datatype PlanetProps = PlanetProps(
    name: string, size: real, orbitRadius: real, orbitSpeed: real, rotationSpeed: real,
    color: string, textureKey: string, initialAngle: real, showOrbit: bool, tilt: real, emissive: bool,
    parentPlanet: Option<Planets.ParentOrbit>)

  datatype RingsProps = RingsProps(innerRadius: real, outerRadius: real, textureKey: string,
                                   orbitRadius: real, orbitSpeed: real, initialAngle: real, tilt: real)

  datatype CloudsProps = CloudsProps(size: real, orbitRadius: real, orbitSpeed: real, rotationSpeed: real,
                                     initialAngle: real, tilt: real)

  /** The fields of a user-added asteroid or comet record that the scene reads. */
  datatype CustomAsteroid = CustomAsteroid(id: real, name: string, size: real, orbitRadius: real,
                                           orbitSpeed: real, rotationSpeed: real, color: string,
                                           irregularShape: bool, initialAngle: real, inclination: real)

  datatype CustomComet = CustomComet(id: real, name: string, size: real, perihelion: real, aphelion: real,
                                     orbitSpeed: real, rotationSpeed: real, color: string, tailLength: real,
                                     tailColor: string, initialAngle: real, inclination: real)

  /** `Math.random() * Math.PI * 2`. */
  function RandomAngle(u: Unit): real {
    u * PI * 2.0
  }

  function Planet(name: string, size: real, orbitRadius: real, orbitSpeed: real, rotationSpeed: real,
                  color: string, texture: string, angle: real, tilt: real): Body {
    Body(name, size, orbitRadius, orbitSpeed, rotationSpeed, color, texture,
         Some(angle), Some(tilt), None, None, [], None)
  }

  /**
   * `planetData` at `scale`: the eight planets draw their initial angles from
   * `rand(0)` (Mercury) to `rand(7)` (Neptune) in catalogue order.
   */
  function Catalogue(scale: real, rand: Random): (c: seq<Body>)
    ensures |c| == 9
  {
    [ Body("Sun", 3.0 * scale, 0.0, 0.0, 0.0003, "#FDB813", "sun",
           None, None, Some(true), Some("sun"), [], None),
      Planet("Mercury", 0.38 * scale, 5.0 * scale, 0.013, 0.0013, "#B7B7B7", "mercury", RandomAngle(rand(0)), 0.03),
      Planet("Venus", 0.95 * scale, 7.0 * scale, 0.005, 0.0007 * -1.0, "#E6CA9A", "venus", RandomAngle(rand(1)), 0.001),
      Body("Earth", 1.0 * scale, 10.0 * scale, 0.0033, 0.0067, "#3B8CF2", "earth",
           Some(RandomAngle(rand(2))), Some(0.41), None, Some("earth"),
           [Moon("Moon", 0.27 * scale, 1.5 * scale, 0.017, 0.0017, "#CCCCCC", "moon")], None),
      Planet("Mars", 0.53 * scale, 15.0 * scale, 0.0027, 0.006, "#B22E1C", "mars", RandomAngle(rand(3)), 0.44),
      Planet("Jupiter", 2.0 * scale, 22.0 * scale, 0.0013, 0.013, "#B5975A", "jupiter", RandomAngle(rand(4)), 0.05),
      Body("Saturn", 1.7 * scale, 30.0 * scale, 0.0008, 0.013, "#E9D496", "saturn",
           Some(RandomAngle(rand(5))), Some(0.47), None, Some("saturn"),
           [], Some(Rings(2.0 * scale, 3.5 * scale, "saturnRings"))),
      Planet("Uranus", 1.4 * scale, 38.0 * scale, 0.0003, 0.01, "#CAEAE8", "uranus", RandomAngle(rand(6)), 1.71),
      Planet("Neptune", 1.4 * scale, 45.0 * scale, 0.0003, 0.01, "#3D58E5", "neptune", RandomAngle(rand(7)), 0.49) ]
  }

  /** The orbit radii of the catalogue, in units of `scale`. */
  const RadiusFactors: seq<real> := [0.0, 5.0, 7.0, 10.0, 15.0, 22.0, 30.0, 38.0, 45.0]

  /**
   * The catalogue's orbit radii are 0, 5, 7, 10, 15, 22, 30, 38 and 45 times the
   * scale, strictly increasing for a positive scale.
   */
  lemma CatalogueRadii(scale: real, rand: Random)
    ensures forall i :: 0 <= i < 9 ==> Catalogue(scale, rand)[i].orbitRadius == RadiusFactors[i] * scale
    ensures scale > 0.0 ==>
      forall i, j :: 0 <= i < j < 9 ==> Catalogue(scale, rand)[i].orbitRadius < Catalogue(scale, rand)[j].orbitRadius
  {
    var c := Catalogue(scale, rand);
    if scale > 0.0 {
      forall i, j | 0 <= i < j < 9
        ensures c[i].orbitRadius < c[j].orbitRadius
      {
        assert RadiusFactors[i] < RadiusFactors[j];
        assert RadiusFactors[j] * scale - RadiusFactors[i] * scale == (RadiusFactors[j] - RadiusFactors[i]) * scale;
        MulPos(RadiusFactors[j] - RadiusFactors[i], scale);
      }
    }
  }

  /** Venus is the only body that spins backwards. */
  lemma OnlyVenusSpinsBackwards(scale: real, rand: Random)
    ensures forall i :: 0 <= i < 9 ==> (Catalogue(scale, rand)[i].rotationSpeed < 0.0 <==> Catalogue(scale, rand)[i].name == "Venus")
  {
  }

  /** The `Planet` element of a catalogue entry. */
  function PlanetPropsOf(b: Body): (p: PlanetProps)
    ensures p.initialAngle == (if b.initialAngle.Some? then b.initialAngle.value else 0.0)
    ensures p.tilt == (if b.tilt.Some? then b.tilt.value else 0.0)
    ensures p.emissive == (b.emissive == Some(true))
    ensures p.showOrbit <==> b.orbitRadius > 0.0
    ensures p.orbitRadius == b.orbitRadius && p.orbitSpeed == b.orbitSpeed && p.parentPlanet.None?
  {
    PlanetProps(b.name, b.size, b.orbitRadius, b.orbitSpeed, b.rotationSpeed, b.color, b.texture,
                b.initialAngle.GetOr(0.0), b.orbitRadius > 0.0, b.tilt.GetOr(0.0), b.emissive.GetOr(false),
                None)
  }

  /** For a positive scale, the Sun is the only body drawn without an orbit line. */
  lemma OnlySunWithoutOrbit(scale: real, rand: Random)
    requires scale > 0.0
    ensures forall i :: 0 <= i < 9 ==> (!PlanetPropsOf(Catalogue(scale, rand)[i]).showOrbit <==> i == 0)
  {
    CatalogueRadii(scale, rand);
  }

  /** The moon element of `moon` around the catalogue entry `b`, with its own drawn initial angle. */
  function MoonPropsOf(b: Body, moon: Moon, u: Unit): (p: PlanetProps)
    ensures p.parentPlanet == Some(Planets.ParentOrbit(b.orbitRadius, b.orbitSpeed, b.initialAngle.GetOr(0.0)))
    ensures p.orbitRadius == moon.orbitRadius && p.orbitSpeed == moon.orbitSpeed && p.showOrbit
    ensures 0.0 <= p.initialAngle < 2.0 * PI
  {
    AngleInRange(u);
    PlanetProps(moon.name, moon.size, moon.orbitRadius, moon.orbitSpeed, moon.rotationSpeed, moon.color,
                moon.texture, RandomAngle(u), true, 0.0, false,
                Some(Planets.ParentOrbit(b.orbitRadius, b.orbitSpeed, b.initialAngle.GetOr(0.0))))
  }

  lemma AngleInRange(u: Unit)
    ensures 0.0 <= RandomAngle(u) < 2.0 * PI
  {
    MulMono(PI * 2.0, 0.0, u);
    assert u * PI * 2.0 == (PI * 2.0) * u;
    assert (PI * 2.0) - (PI * 2.0) * u == (PI * 2.0) * (1.0 - u);
    MulPos(PI * 2.0, 1.0 - u);
  }

  /** The rings element of an entry, present for the Saturn entry with a `rings` record. */
  function RingsPropsOf(b: Body): (r: Option<RingsProps>)
    ensures r.Some? <==> b.special == Some("saturn") && b.rings.Some?
    ensures r.Some? ==>
      && r.value.orbitRadius == PlanetPropsOf(b).orbitRadius && r.value.orbitSpeed == PlanetPropsOf(b).orbitSpeed
      && r.value.initialAngle == PlanetPropsOf(b).initialAngle && r.value.tilt == PlanetPropsOf(b).tilt
  {
    if b.special == Some("saturn") && b.rings.Some? then
      Some(RingsProps(b.rings.value.innerRadius, b.rings.value.outerRadius, b.rings.value.texture,
                      b.orbitRadius, b.orbitSpeed, b.initialAngle.GetOr(0.0), b.tilt.GetOr(0.0)))
    else None
  }

  /** The clouds element of an entry, present for the Earth entry. */
  function CloudsPropsOf(b: Body): (c: Option<CloudsProps>)
    ensures c.Some? <==> b.special == Some("earth")
    ensures c.Some? ==>
      && c.value.size == b.size * 1.02 && c.value.rotationSpeed == b.rotationSpeed * 1.2
      && c.value.orbitRadius == PlanetPropsOf(b).orbitRadius && c.value.orbitSpeed == PlanetPropsOf(b).orbitSpeed
      && c.value.initialAngle == PlanetPropsOf(b).initialAngle && c.value.tilt == PlanetPropsOf(b).tilt
  {
    if b.special == Some("earth") then
      Some(CloudsProps(b.size * 1.02, b.orbitRadius, b.orbitSpeed, b.rotationSpeed * 1.2,
                       b.initialAngle.GetOr(0.0), b.tilt.GetOr(0.0)))
    else None
  }

  /** In the catalogue only Earth gets clouds, only Saturn gets rings, and only Earth has a moon. */
  lemma CatalogueSpecials(scale: real, rand: Random)
    ensures forall i :: 0 <= i < 9 ==> (CloudsPropsOf(Catalogue(scale, rand)[i]).Some? <==> i == 3)
    ensures forall i :: 0 <= i < 9 ==> (RingsPropsOf(Catalogue(scale, rand)[i]).Some? <==> i == 6)
    ensures forall i :: 0 <= i < 9 ==> (|Catalogue(scale, rand)[i].moons| > 0 <==> i == 3)
  {
  }

  /** The `Asteroid` props of a user-added asteroid: size and orbit radius scaled, the rest passed through. */
  datatype AsteroidProps = AsteroidProps(name: string, size: real, orbitRadius: real, orbitSpeed: real,
                                         rotationSpeed: real, color: string, irregularShape: bool,
                                         initialAngle: real, inclination: real, showOrbit: bool)

  function AsteroidPropsOf(a: CustomAsteroid, scale: real): (p: AsteroidProps)
    ensures p.size == a.size * scale && p.orbitRadius == a.orbitRadius * scale
    ensures p.orbitSpeed == a.orbitSpeed && p.rotationSpeed == a.rotationSpeed
    ensures p.initialAngle == a.initialAngle && p.inclination == a.inclination && p.showOrbit
  {
    AsteroidProps(a.name, a.size * scale, a.orbitRadius * scale, a.orbitSpeed, a.rotationSpeed, a.color,
                  a.irregularShape, a.initialAngle, a.inclination, true)
  }

  /** The `Comet` props of a user-added comet: the lengths scaled, speeds and angles passed through. */
  datatype CometProps = CometProps(name: string, size: real, perihelion: real, aphelion: real,
                                   orbitSpeed: real, rotationSpeed: real, color: string, tailLength: real,
                                   tailColor: string, initialAngle: real, inclination: real, showOrbit: bool)

  function CometPropsOf(c: CustomComet, scale: real): (p: CometProps)
    ensures p.size == c.size * scale && p.perihelion == c.perihelion * scale
    ensures p.aphelion == c.aphelion * scale && p.tailLength == c.tailLength * scale
    ensures p.orbitSpeed == c.orbitSpeed && p.rotationSpeed == c.rotationSpeed
    ensures p.initialAngle == c.initialAngle && p.inclination == c.inclination && p.showOrbit
  {
    CometProps(c.name, c.size * scale, c.perihelion * scale, c.aphelion * scale, c.orbitSpeed,
               c.rotationSpeed, c.color, c.tailLength * scale, c.tailColor, c.initialAngle, c.inclination, true)
  }

  /**
   * Scaling keeps a comet's orbit well formed: with a positive scale, a record
   * with `0 < perihelion <= aphelion` gives props with the same ordering, so the
   * comet model's requirement holds for every scene comet.
   */
  lemma ScaledCometOrbit(c: CustomComet, scale: real)
    requires scale > 0.0 && 0.0 < c.perihelion <= c.aphelion
    ensures 0.0 < CometPropsOf(c, scale).perihelion <= CometPropsOf(c, scale).aphelion
  {
    MulPos(c.perihelion, scale);
    assert c.aphelion * scale - c.perihelion * scale == (c.aphelion - c.perihelion) * scale;
    MulMono(scale, 0.0, c.aphelion - c.perihelion);
  }
}
