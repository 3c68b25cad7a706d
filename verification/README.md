# Space Simulation: a verified model of the simulation and texture core

Space Simulation is a React/three.js scene. It shows a spiral galaxy, a starfield and a
solar system with moons, Earth's clouds, Saturn's rings, user-added asteroids and
comets, and procedurally drawn planet textures. Under the JSX sits a layer of small
per-frame and per-call logic, and this project models that layer in Dafny and proves
what it promises.

What is modelled, module by module:

- `Common`: option/result wrappers, vectors and colours, and the `Math` functions
  (cos, sin, sqrt, cbrt, acos).
  - The `Math` functions are a `MathLib` value constrained only by the laws in
    `Lawful()`, so every result holds for any functions obeying those laws.
  - `Math.random()` becomes an explicit stream `Random = nat -> Unit` of draws in [0, 1).
- `Planets`, `EarthClouds`, `SaturnRings`, `Asteroids`, `Comets`: each body component
  is a class whose fields are the refs and the mesh/group transforms its `useFrame`
  callback writes. `Frame` is one callback.
  - Each class keeps a `Valid()` invariant tying its phase to the number of mounted
    frames, or to the elapsed time for asteroids.
  - The orbit positions are proved as separate lemmas: circles, the inclined circle
    of an asteroid, and the perihelion/aphelion conic of a comet.
  - The comet's 100-particle tail buffer is an `array<real>` that the tail loop
    rewrites in place.
  - The asteroid's vertex rescale loop works in place on its position buffer.
- `Galaxy`, `Stars`: the point-field generators fill `array<real>` position and colour
  buffers index by index. Each is proved against a specification function of the
  random draws.
- `Camera`: the camera controller as a class over its `mouse`, `zoom`, `rotation` and
  `target` refs, with its event handlers, the focus effect and the easing frame step.
- `App`: the custom-body lists and parameter records of the top-level component: add
  with an id, remove by id, and merge.
- `SolarSystem`: the nine-body catalogue and the props each element receives.
- `Canvas2D`, `Stamping`, `Continents`, `Textures`, `TextureLoader`: the texture
  recipes and the loader.
  - A canvas is a class that logs every 2D-context call it receives, so each recipe
    is a method proved to append exactly the calls of a specification function.
  - Rasterisation itself is not modelled.
  - The loader's fallback and its twelve-entry table are modelled on top of that.

Behaviours of the code worth knowing:

- Planets, moons, clouds, rings and comets advance their phase by a fixed amount per
  frame (src/components/Planet.js:45, src/components/Comet.js:92), not by rate ×
  elapsed time. Only asteroids scale by the frame delta
  (src/components/Asteroid.js:77).
- The comet's eccentricity division (src/components/Comet.js:32-33) is not guarded.
  The model therefore requires 0 < perihelion ≤ aphelion, which the editor's slider
  bounds guarantee (src/components/SpaceObjectEditor.js:188, 200).
- The comment at src/components/Comet.js:117 says the tail extends away from the sun.
  The direction computed at src/components/Comet.js:118 points towards it (see
  Findings).
- An unknown texture tag does not fail: it selects the default recipe
  (src/utils/createPlanetTexture.js:49-50). Generation fails only for 'uranus' and
  'neptune' (see Findings), and the loader then substitutes its fallback texture
  (src/utils/loadPlanetTextures.js:77-81).

## Model

| member | source | states |
|---|---|---|
| Common.Clamp | src/components/CameraControls.js:85-87 | `Math.max(lo, Math.min(hi, v))` lies in [lo, hi]. It is v when v is already inside, lo below the range and hi above it. |
| Common.AccumulatedIsProduct | src/components/Planet.js:45 | A per-frame `+= step` gives exactly n·step after n frames. |
| Common.MoveOnCircle | src/components/Planet.js:47-50 | Writing x = cos(angle)·radius and z = sin(angle)·radius places the point on the circle and keeps its y. |
| Common.PlaceOnCircleDistance | src/components/Planet.js:47-50 | The placed point is at distance radius from the y axis, at its old height. |
| Common.NormalizeUnit | src/components/Comet.js:118 | `normalize()` of a non-zero vector gives a unit vector. |
| App.InitialState | src/App.js:13-28 | The initial state has empty asteroid and comet lists. The galaxy record has exactly the four keys particleCount, galaxyRadius, galaxyThickness and rotationSpeed. The solar-system record has exactly scale and position. |
| App.Merge | src/App.js:59-65 | `{...prev, ...newParams}` has the union of both key sets. Each supplied key takes the new value. Every other key keeps the old value. |
| App.MergeIdempotent | src/App.js:59-65 | Applying the same parameter update twice gives the same record as applying it once. |
| App.Append | src/App.js:31-44 | `[...list, {...params, id}]` adds exactly one record at the end and leaves the earlier entries unchanged. The new record has every key of the parameters plus `id`. Its id is the timestamp. |
| App.RemoveId | src/App.js:47-54 | The filter never lengthens the list. Every kept entry was in the list and does not carry the removed id. |
| App.RemoveIdKeeps | src/App.js:47-54 | Every entry whose id differs from the removed one is kept. |
| App.RemoveIdConcat | src/App.js:47-54 | The filter works entry by entry: filtering a concatenation is the concatenation of the filtered parts. So kept entries stay in their original order. |
| App.RemoveUnknownId | src/App.js:47-54 | Removing an id that no entry carries leaves the list unchanged. |
| App.AddAsteroid | src/App.js:31-36 | Only the asteroid list changes, and it changes by appending the new record. |
| App.AddComet | src/App.js:39-44 | Only the comet list changes, and it changes by appending the new record. The asteroid list is untouched. |
| App.RemoveAsteroid | src/App.js:47-49 | Only the asteroid list changes, and it becomes the filtered list. |
| App.RemoveComet | src/App.js:52-54 | Only the comet list changes, and it becomes the filtered list. |
| App.UpdateGalaxyParams | src/App.js:59-61 | The galaxy record becomes the merge of old and new. Nothing else in the state changes. |
| App.UpdateSolarSystemParams | src/App.js:63-65 | The solar-system record becomes the merge of old and new. Nothing else in the state changes. |
| App.AddThenRemove | src/App.js:31-49 | Adding an asteroid and then removing its id restores the previous state, provided no earlier asteroid has the same timestamp. |
| App.SameMillisecondAdds | src/App.js:31-49 | Two asteroids added in the same millisecond share one id. Removing that id deletes both. |
| Asteroids.ResolveOrbitProps | src/components/Asteroid.js:14-15 | A supplied initialAngle or inclination is kept. A missing initialAngle defaults to a value in [0, 2π). A missing inclination defaults to a value in [0, 0.4). |
| Asteroids.DefaultsInRange | src/components/Asteroid.js:14-15 | `Math.random() * Math.PI * 2` lies in [0, 2π) and `Math.random() * 0.4` lies in [0, 0.4). |
| Asteroids.AsteroidPositionShape | src/components/Asteroid.js:80-84 | The position satisfies three facts. First, y is exactly z·sin(inclination). Second, x² + z² equals orbitRadius². Third, the squared distance from the sun lies between orbitRadius² and 2·orbitRadius². |
| Asteroids.ScaledSumIsProduct | src/components/Asteroid.js:77 | Summing `rate·delta` over the frames gives rate times the total elapsed time. |
| Asteroids.ComputePosition | src/components/Asteroid.js:80-84 | The group lands at distance orbitRadius from the y axis (x² + z² = R²), at height y = z·sin(inclination), and its squared distance from the sun lies in [R², 2R²]. |
| Asteroids.Asteroid.Frame | src/components/Asteroid.js:74-91 | When either ref is missing, nothing changes. Otherwise: the phase grows by orbitSpeed·delta; the group moves to the position for the new phase; rotation x, y and z grow by rotationSpeed·delta times 1, 0.7 and 0.5. The class invariant is kept. |
| Asteroids.PhaseAndSpin | src/components/Asteroid.js:77-89 | After any sequence of mounted frames the phase is initialAngle + orbitSpeed·t, and rotation.x is rotationSpeed·t, where t is the total elapsed time. Rotation y and z are 0.7 and 0.5 times rotation x. |
| Asteroids.DistortionFactor | src/components/Asteroid.js:36-37 | The scale factor `1 + (0.2 + Math.random()·0.3)` lies in [1.2, 1.5). |
| Asteroids.DistortionScalesVertex | src/components/Asteroid.js:32-40 | Each vertex of the distorted buffer is the original vertex scaled by its factor. Its distance from the centre therefore grows by a factor in [1.2, 1.5). |
| Asteroids.LengthScaled | src/components/Asteroid.js:37 | `multiplyScalar(f)` with f ≥ 0 multiplies a vector's length by f. |
| Asteroids.DistortedVertexSlots | src/components/Asteroid.js:32-40 | The x, y and z slots of vertex i are each multiplied by the factor of draw i. |
| Asteroids.Distort | src/components/Asteroid.js:32-40 | The loop visits every whole vertex once. The buffer afterwards equals the distorted version of the buffer before. |
| Asteroids.ScaleVertex | src/components/Asteroid.js:33-39 | One iteration scales the three slots of vertex i by its factor and leaves every other slot unchanged. |
| Asteroids.Asteroid.constructor | src/components/Asteroid.js:18-22 | The phase ref starts at initialAngle. No frame has run yet, so the group is at the origin and the mesh is unrotated. |
| Camera.EaseGap | src/components/CameraControls.js:121-123 | One easing step leaves 0.9 times the old gap to the target. The new value lies between the old value and the target. |
| Camera.EaseInRange | src/components/CameraControls.js:121-123 | Easing from a value in [lo, hi] towards a target in [lo, hi] stays in [lo, hi]. |
| Camera.EaseFramesGap | src/components/CameraControls.js:121-123 | After n frames towards a fixed target, the gap is 0.9ⁿ times the original gap. |
| Camera.PlacementDistance | src/components/CameraControls.js:126-133 | The camera at target + r·(sinφ cosθ, cosφ, sinφ sinθ) is at squared distance r² from the target. |
| Camera.ComputePlacement | src/components/CameraControls.js:126-133 | The camera is placed on the sphere of radius r = zoom around the look target: its squared distance from the target is r². |
| Camera.CameraRig.constructor | src/components/CameraControls.js:10-42 | The refs start at their literal values: mouse up, button −1, zoom and zoom target 30, look target at the origin, azimuth π/4 and zenith π/6. The camera starts at (25, 15, 25). The controller's limits hold from the start. |
| Camera.CameraRig.Focus | src/components/CameraControls.js:45-59 | 'galaxy' sets the zoom target to 30 and the look target to the origin. 'solarSystem' sets the zoom target to 10 and the look target to solarSystemPosition. Any other mode changes neither. No other field changes. |
| Camera.CameraRig.MouseDown | src/components/CameraControls.js:65-70 | Sets down, the mouse position and the button. Nothing else changes. |
| Camera.CameraRig.MouseUp | src/components/CameraControls.js:72-75 | Sets down to false and button to −1. Nothing else changes. |
| Camera.CameraRig.MouseMove | src/components/CameraControls.js:77-94 | With the mouse up nothing changes. While down, the mouse position is remembered. With button 0, the azimuth target drops by deltaX·0.01 and the zenith target becomes clamp(zenith target − deltaY·0.01, 0.1, π/2 − 0.1). With any other button both targets stay. |
| Camera.CameraRig.Wheel | src/components/CameraControls.js:96-101 | The zoom target becomes clamp(zoom target + deltaY·0.05, 5, 100), which always lies in [5, 100]. Nothing else changes. |
| Camera.CameraRig.Frame | src/components/CameraControls.js:119-137 | Azimuth, zenith and zoom each take one easing step towards their targets. The camera is placed on the sphere of the new zoom around the look target. Zoom and zenith stay within their limits. |
| Camera.CameraOnSphere | src/components/CameraControls.js:123-133 | After a frame the camera is at distance zoom from the point it looks at, so its squared distance lies between 5² and 100². |
| Planets.Planet.constructor | src/components/Planet.js:5-27 | The `angle` ref starts at initialAngle. `parentAngle` starts at `parentPlanet?.initialAngle`, or 0 without a parent. The group is at the origin, the mesh at its position prop, and there is no rotation yet. |
| Planets.Planet.Frame | src/components/Planet.js:29-64 | When either ref is missing, nothing changes. Otherwise the phase grows by exactly orbitSpeed, independent of frame timing, and the mesh moves to (cos a·R, sin a·R) in x/z. rotation.x is overwritten with tilt and rotation.y grows by rotationSpeed. A moon's parentAngle grows by the parent's orbitSpeed and its group moves onto the parent's circle. Without a parent the group is never written. With orbitRadius 0 the mesh stays on the y axis. |
| Planets.Planet.OrbitRing | src/components/Planet.js:67-75 | The ring has 129 points. Point i is at angle 2πi/128 on the circle of orbitRadius in the y = 0 plane. |
| Planets.MoonGroupOnParentCircle | src/components/Planet.js:27-42 | After n ≥ 1 mounted frames, a moon's group lies in the y = 0 plane at distance parent.orbitRadius from the y axis. Its parentAngle is parent.initialAngle + n·parent.orbitSpeed. |
| Planets.PhaseAfterFrames | src/components/Planet.js:45-63 | After n mounted frames the phase is initialAngle + n·orbitSpeed and rotation.y is n·rotationSpeed, which runs backwards for a negative speed. |
| Planets.TopLevelGroupFixed | src/components/Planet.js:27-42 | A planet without a parent keeps its group at the origin and its parentAngle at 0 forever. |
| EarthClouds.Clouds.constructor | src/components/EarthClouds.js:5-16 | The phase starts at initialAngle and the group at the origin. The mesh starts tilted by tilt with no spin. |
| EarthClouds.Clouds.Frame | src/components/EarthClouds.js:18-37 | When either ref is missing, nothing changes. Otherwise the phase grows by orbitSpeed, the group moves to the circle of orbitRadius in x/z with y untouched, rotation.x is set to tilt, and rotation.y grows by rotationSpeed. |
| EarthClouds.CloudsFollowEarth | src/components/EarthClouds.js:21-29 | Clouds given Earth's initialAngle, orbitSpeed, orbitRadius and tilt sit exactly where Earth's mesh is after the same number of frames. Their phase equals Earth's, and once Earth has been tilted they share its tilt. |
| EarthClouds.CloudsSpinFaster | src/components/EarthClouds.js:35 | With rotationSpeed 1.2 times Earth's, the clouds have always turned 1.2 times as far as Earth about their axis. |
| SaturnRings.Rings.constructor | src/components/SaturnRings.js:5-16 | The phase starts at initialAngle, the group at the origin, and the mesh at rotation (tilt, 0, 0). |
| SaturnRings.Rings.Frame | src/components/SaturnRings.js:18-34 | When either ref is missing, nothing changes. Otherwise the phase grows by orbitSpeed and the group moves onto the circle of orbitRadius. The rotation stays (tilt, 0, 0) in every case, so no spin ever accumulates. |
| SaturnRings.RingsFollowSaturn | src/components/SaturnRings.js:19-32 | Rings given Saturn's orbit parameters are centred on Saturn's mesh after the same number of frames. Once Saturn has been tilted they share its tilt. |
| Comets.EccentricityRange | src/components/Comet.js:32-33 | For 0 < perihelion ≤ aphelion, the eccentricity memo lies in [0, 1) and the semi-major axis lies between perihelion and aphelion. |
| Comets.ApsidesFromAxis | src/components/Comet.js:32-33 | The two memos describe the intended ellipse: a(1 − e) is perihelion and a(1 + e) is aphelion. |
| Comets.RadiusTimesDenominator | src/components/Comet.js:95 | With the division cleared, the radius formula reads r·((a + p) + (a − p)·cosθ) = 2ap. |
| Comets.RadiusBetweenApsides | src/components/Comet.js:95 | For every cosθ in [−1, 1] the radius lies between perihelion and aphelion. |
| Comets.RadiusAtApsides | src/components/Comet.js:95 | The radius is exactly perihelion at cosθ = 1 and exactly aphelion at cosθ = −1. |
| Comets.RadiusMonotone | src/components/Comet.js:95 | The radius never grows as cosθ grows, so the comet is closest where the cosine is largest. |
| Comets.PositionDistance | src/components/Comet.js:98-100 | Tilting the orbit plane by the inclination keeps the distance from the sun at r. |
| Comets.PositionOnOrbit | src/components/Comet.js:92-104 | Every position a frame computes lies between the perihelion and aphelion spheres. |
| Comets.DistanceIsRadius | src/components/Comet.js:112 | `Math.sqrt(x*x + y*y + z*z)` of a frame's position is exactly the orbit radius for the current phase. |
| Comets.TailLengthBounds | src/components/Comet.js:115 | For a non-negative tailLength, the current tail length lies in [0.3·tailLength, tailLength]. |
| Comets.TailLengthAtSun | src/components/Comet.js:115 | At distance 0 the tail has its full length. |
| Comets.TailLengthBeyondAphelion | src/components/Comet.js:115 | At or beyond aphelion the tail is exactly 0.3·tailLength. |
| Comets.TailLengthAntitone | src/components/Comet.js:115 | A comet farther from the sun never has a longer tail. |
| Comets.JitterBound | src/components/Comet.js:138-140 | Each random offset `(Math.random() − 0.5)·ratio·0.5` has magnitude at most 0.25·ratio. |
| Comets.TailParticle | src/components/Comet.js:123-141 | Particle i's ratio i/100 lies in [0, 1). Each coordinate of particle i is comet + dir·len·(i/100), up to a jitter of at most 0.25·(i/100). |
| Comets.TailStartsAtComet | src/components/Comet.js:123-141 | Particle 0 has ratio 0, so it sits exactly on the comet. |
| Comets.TailDirectionUnit | src/components/Comet.js:118 | For a comet away from the sun, the normalised tail direction is a unit vector. |
| Comets.TailAxisSunward | src/components/Comet.js:117-118 | As written, moving a particle along the tail direction by s, for 0 < s up to the comet's distance, brings it strictly closer to the sun. |
| Comets.TailAxisAntiSunward | src/components/Comet.js:117-118 | The intended direction, comet position normalised, is a unit vector. Moving along it by any s > 0 takes a particle strictly farther from the sun. |
| Comets.ParticleSize | src/components/Comet.js:59 | A particle size `Math.random()·0.5 + 0.1` lies in [0.1, 0.6). |
| Comets.MakeTail | src/components/Comet.js:37-60 | The memo creates three fresh buffers. The position buffer is all zeros. Colour slot k holds channel k mod 3 of the tail colour. Size i is drawn from the i-th random number. |
| Comets.InitParticle | src/components/Comet.js:45-60 | One pass of the memo loop zeroes particle i's three position slots, gives it the tail colour, and sets its size from draw i. Earlier slots are untouched. |
| Comets.WriteTail | src/components/Comet.js:123-141 | The particle loop rewrites every one of the 100 particles. The buffer afterwards is exactly the tail for this comet position, direction and length. |
| Comets.WriteParticle | src/components/Comet.js:124-140 | One iteration writes particle i's three coordinates, each comet + dir·len·ratio + jitter, and leaves the earlier particles untouched. |
| Comets.ComputePosition | src/components/Comet.js:95-100 | The computed point lies between the perihelion and aphelion spheres. Its distance `Math.sqrt(x² + y² + z²)` equals the conic radius for the phase. |
| Comets.UpdateTail | src/components/Comet.js:110-144 | The tail block computes the distance, current tail length and normalised (−x, −y, −z) direction. It rewrites the buffer as the tail for those values. |
| Comets.Comet.constructor | src/components/Comet.js:29-67 | The phase starts at initialAngle. The buffers are fresh, with zero positions, the tail colour and random sizes. Colours and sizes satisfy the component invariant. |
| Comets.Comet.Frame | src/components/Comet.js:89-146 | When the group or the comet ref is missing, nothing changes. Otherwise the phase grows by exactly orbitSpeed with no frame delta, the comet moves to the orbit position for the new phase, and rotation.y grows by rotationSpeed. The tail buffer is rewritten exactly when the tail ref is also mounted. Colours and sizes are never written. |
| Comets.Comet.OrbitPath | src/components/Comet.js:148-162 | The path has 129 points. Point i is the orbit position at θ = 2πi/128 and lies between the perihelion and aphelion spheres. |
| Galaxy.BranchAngleParity | src/components/GalaxySimulation.js:19-25 | With two arms, the branch angle is 0 for even indices and π for odd ones. |
| Galaxy.DampingRange | src/components/GalaxySimulation.js:36 | For t in [0, 1), the damping factor 1 − 0.8t² lies in (0.2, 1]. |
| Galaxy.RadiusRange | src/components/GalaxySimulation.js:22 | `Math.random()·galaxyRadius` lies in [0, galaxyRadius). Divided by galaxyRadius it gives back the draw. |
| Galaxy.ParticleInDisk | src/components/GalaxySimulation.js:22-41 | A point's squared distance from the spin axis, x² + y², is the square of its drawn radius, which lies in [0, galaxyRadius). |
| Galaxy.ParticleAxisDistance | src/components/GalaxySimulation.js:22-41 | √(x² + y²) of a point equals the radius it was drawn with. |
| Galaxy.ParticleThickness | src/components/GalaxySimulation.js:35-36 | The damping factor lies in (0.2, 1], so a point's height stays within ±galaxyThickness. |
| Galaxy.ParticleColourBetween | src/components/GalaxySimulation.js:45-51 | Each colour channel is the lerp of the centre and edge channels with t = r/R in [0, 1), so it lies between the two. |
| Galaxy.GalaxyPositions | src/components/GalaxySimulation.js:14-42 | The position buffer has exactly 3·particleCount entries. |
| Galaxy.GalaxyColours | src/components/GalaxySimulation.js:15-51 | The colour buffer has exactly 3·particleCount entries. |
| Galaxy.ComputeParticle | src/components/GalaxySimulation.js:19-47 | The drawn radius lies in [0, galaxyRadius), and the point's squared distance from the spin axis is that radius squared. Its height lies within ±galaxyThickness. Each colour channel lies between the centre and edge colours. |
| Galaxy.WriteParticle | src/components/GalaxySimulation.js:39-51 | Slots 3i, 3i+1 and 3i+2 of both buffers receive point i. The slots before 3i are kept. |
| Galaxy.Generate | src/components/GalaxySimulation.js:13-55 | The memo returns two fresh, distinct buffers. Every slot is written once, and they are exactly the position and colour buffers of the disk drawn from the stream. |
| Galaxy.PointsKept | src/components/GalaxySimulation.js:17-52 | Writing point i keeps points 0 to i−1 in place, so after iteration i points 0 to i are in the buffers. |
| Galaxy.BuffersFromPoints | src/components/GalaxySimulation.js:14-52 | Buffers that hold every point at its three slots are the generated buffers. |
| Galaxy.GalaxyView.constructor | src/components/GalaxySimulation.js:6-55 | The instance starts with the generated buffers for its props and rotation 0. |
| Galaxy.GalaxyView.Render | src/components/GalaxySimulation.js:13-55 | The buffers are regenerated from fresh draws exactly when particleCount, galaxyRadius or galaxyThickness changes. A new rotationSpeed alone keeps them. The rotation is kept. |
| Galaxy.GalaxyView.Frame | src/components/GalaxySimulation.js:58-62 | When the points object is mounted, rotation.y grows by rotationSpeed·0.01. Otherwise it is unchanged. The buffers never change. |
| Continents.PointCount | src/utils/createPlanetTexture.js:331 | `Math.floor(Math.random()·10) + 10` lies in [10, 19]. |
| Continents.MaxRadius | src/utils/createPlanetTexture.js:332 | `Math.random()·150 + 50` lies in [50, 200). |
| Continents.Outline | src/utils/createPlanetTexture.js:330-341 | The outline has exactly pointCount vertices. |
| Continents.LineTos | src/utils/createPlanetTexture.js:348-350 | There is one `lineTo` for every vertex after the first. |
| Continents.VertexAnglesIncrease | src/utils/createPlanetTexture.js:336 | Vertex angles 2πi/pointCount start at 0, strictly increase with i, and stay below 2π. |
| Continents.VertexRadiusRange | src/utils/createPlanetTexture.js:337 | Every vertex radius lies in [maxRadius/2, 1.5·maxRadius). |
| Continents.ContinentShape | src/utils/createPlanetTexture.js:327-341 | A continent has 10 to 19 vertices and a maxRadius in [50, 200). Vertex i lies at its radius, in [maxRadius/2, 1.5·maxRadius), from the random centre. |
| Continents.ContinentCalls | src/utils/createPlanetTexture.js:344-353 | A continent is pointCount + 4 calls. It starts with the fill-style assignment and ends with closePath and fill. Every call between moveTo and closePath is a lineTo. |
| Continents.ComputeOutline | src/utils/createPlanetTexture.js:328-341 | The vertex loop pushes exactly the outline's points, in order. |
| Continents.FillPolygon | src/utils/createPlanetTexture.js:344-353 | The drawing half appends: fill style, beginPath, moveTo the first vertex, a lineTo to every later vertex in order, closePath, fill. |
| Continents.DrawContinent | src/utils/createPlanetTexture.js:327-354 | The context log grows by exactly the continent's calls. The next continent's draws start after the centre, count, size and per-vertex draws. |
| Continents.ContinentCursorBounds | src/utils/createPlanetTexture.js:327-341 | Continent k starts between draw 14k and draw 23k. Consecutive continents use disjoint runs of draws. |
| Stars.CursorBounds | src/components/BackgroundStars.js:14-39 | Each star takes five or six draws, because the second colour test is only made when the first fails. Star i's draws therefore start between draw 5i and draw 6i. |
| Stars.Brightness | src/components/BackgroundStars.js:26 | Brightness `0.5 + Math.random()·0.5` lies in [0.5, 1). |
| Stars.StarDistance | src/components/BackgroundStars.js:16-23 | A star's squared distance from the centre is the square of radius·cbrt(u). |
| Stars.StarRanges | src/components/BackgroundStars.js:17-18 | For radius > 0, r = radius·cbrt(u) lies in [0, radius), and the polar angle acos(2u − 1) lies in [0, π]. |
| Stars.SphereSquares | src/components/BackgroundStars.js:21-23 | The point r·(sinφ cosθ, sinφ sinθ, cosφ) is at squared distance r² from the centre. |
| Stars.StarColour | src/components/BackgroundStars.js:26-39 | A star is yellowish exactly when the first test draw exceeds 0.8. It is white exactly when that test fails and the second draw exceeds 0.6. Otherwise it is bluish white. Brightness lies in [0.5, 1) and every colour channel in [0.3, 1). |
| Stars.ChannelsInRange | src/components/BackgroundStars.js:32-38 | For brightness in [0.5, 1), each of the three `setRGB` colours has every channel in [0.3, 1). |
| Stars.StarPositions | src/components/BackgroundStars.js:11-23 | The position buffer has exactly 3·count entries. |
| Stars.StarColours | src/components/BackgroundStars.js:12-43 | The colour buffer has exactly 3·count entries. |
| Stars.ComputeStar | src/components/BackgroundStars.js:16-39 | The loop body takes its draws one after the other and builds exactly the star those draws describe. It ends at the next star's first draw, five or six draws on. |
| Stars.WriteStar | src/components/BackgroundStars.js:20-43 | Slots 3i, 3i+1 and 3i+2 of both buffers receive star i. The slots before 3i are kept. |
| Stars.Generate | src/components/BackgroundStars.js:10-47 | The memo returns two fresh, distinct buffers of 3·count slots. Every slot is written once, and they hold exactly the stars drawn one after the other from the stream. |
| Stars.GenerateStar | src/components/BackgroundStars.js:14-44 | One iteration writes star i at its three slots, keeps earlier slots, and advances the draw cursor to star i + 1. |
| Stars.StarsKept | src/components/BackgroundStars.js:14-44 | Writing star i keeps stars 0 to i−1 in place. |
| Stars.BuffersFromStars | src/components/BackgroundStars.js:11-44 | Buffers that hold every star at its three slots are the generated buffers. |
| SolarSystem.Catalogue | src/components/SolarSystemSimulation.js:16-135 | The catalogue has exactly nine bodies. |
| SolarSystem.CatalogueRadii | src/components/SolarSystemSimulation.js:16-135 | The orbit radii are 0, 5, 7, 10, 15, 22, 30, 38 and 45 times the scale. For a positive scale they strictly increase. |
| SolarSystem.OnlyVenusSpinsBackwards | src/components/SolarSystemSimulation.js:45 | A body has a negative rotationSpeed exactly when it is Venus. |
| SolarSystem.PlanetPropsOf | src/components/SolarSystemSimulation.js:143-155 | A missing initialAngle becomes 0, a missing tilt becomes 0, and a missing emissive becomes false. showOrbit is true exactly when orbitRadius > 0. The orbit parameters pass through, and no parent is given. |
| SolarSystem.OnlySunWithoutOrbit | src/components/SolarSystemSimulation.js:152 | For a positive scale, the Sun is the only body drawn without an orbit line. |
| SolarSystem.MoonPropsOf | src/components/SolarSystemSimulation.js:185-202 | A moon's parentPlanet copies its planet's orbitRadius, orbitSpeed and initialAngle, with 0 if the planet has none. The moon keeps its own orbit, always shows it, and draws its own initial angle in [0, 2π). |
| SolarSystem.AngleInRange | src/components/SolarSystemSimulation.js:200 | `Math.random()·Math.PI·2` lies in [0, 2π). |
| SolarSystem.RingsPropsOf | src/components/SolarSystemSimulation.js:158-169 | Rings are drawn exactly for the 'saturn' entry with a rings record. They get the same orbitRadius, orbitSpeed, initialAngle and tilt as the planet element. |
| SolarSystem.CloudsPropsOf | src/components/SolarSystemSimulation.js:172-181 | Clouds are drawn exactly for the 'earth' entry. Their size is ×1.02 and their rotationSpeed ×1.2. Their orbit parameters and tilt are identical to the planet element's. |
| SolarSystem.CatalogueSpecials | src/components/SolarSystemSimulation.js:51-110 | In the catalogue, only Earth gets clouds, only Saturn gets rings, and only Earth has a moon. |
| SolarSystem.AsteroidPropsOf | src/components/SolarSystemSimulation.js:209-222 | A custom asteroid's size and orbitRadius are multiplied by scale. orbitSpeed, rotationSpeed, initialAngle and inclination pass through unchanged. The orbit is shown. |
| SolarSystem.CometPropsOf | src/components/SolarSystemSimulation.js:226-241 | A custom comet's size, perihelion, aphelion and tailLength are multiplied by scale. Its speeds, initialAngle and inclination pass through unchanged. |
| SolarSystem.ScaledCometOrbit | src/components/SolarSystemSimulation.js:231-232 | With a positive scale, a record with 0 < perihelion ≤ aphelion gives props with the same ordering, so every scene comet meets the comet model's requirement. |
| Stamping.StampShape | src/utils/createPlanetTexture.js:67-99 | A stamp makes exactly four calls, with one `arc` and one `fill`. The arc is a full circle centred on the canvas, with radius in [RadiusMin, RadiusMin + RadiusSpan). A gradient stamp's radial gradient goes from radius 0 to the arc's radius, centred on the arc. An rgba stamp's alpha lies in [AlphaMin, AlphaMax), e.g. [0.2, 0.7) for Mercury craters. |
| Stamping.AlphaRange | src/utils/createPlanetTexture.js:97 | The alpha expressions of the rgba stamps stay in range: Mercury and Mars [0.2, 0.7), Moon [0.2, 0.8), default noise [0, 0.2), fallback dots [0.14, 0.2). |
| Stamping.StampCounts | src/utils/createPlanetTexture.js:95-98 | One stamp calls `arc` once and `fill` once. |
| Stamping.StampRunCounts | src/utils/createPlanetTexture.js:90-99 | A loop of n stamps makes 4n calls and fills exactly n discs. |
| Stamping.StampRunSlices | src/utils/createPlanetTexture.js:67-80 | In a loop of n stamps, stamp j is calls 4j to 4j+3. It uses the draws from position 3j (gradient stamps) or 4j (rgba stamps), so the order of the `Math.random()` calls is kept. |
| Stamping.DrawStamp | src/utils/createPlanetTexture.js:91-98 | One loop body appends exactly the four calls of the stamp, in the recipe's order. |
| Stamping.DrawStamps | src/utils/createPlanetTexture.js:90-99 | The loop appends exactly the run of n stamps to the canvas's calls. |
| Textures.OrNumber | src/utils/createPlanetTexture.js:6-7 | `options.width \|\| 512` keeps a non-zero width and falls back for a missing or zero one. |
| Textures.OrColour | src/utils/createPlanetTexture.js:50 | `options.color \|\| '#FFFFFF'` keeps a non-empty colour and falls back for a missing or empty one. |
| Textures.RecipeSelection | src/utils/createPlanetTexture.js:12-51 | The twelve case labels each select their own recipe, which gives its tag back. Every other tag selects the default recipe with `options.color \|\| '#FFFFFF'`. |
| Textures.CanvasSize | src/utils/createPlanetTexture.js:5-7 | The texture is 512 × 512 unless the options give a non-zero width or height. |
| Textures.UranusNeptuneThrow | src/utils/createPlanetTexture.js:247-286 | As written, generation fails for exactly 'uranus' and 'neptune'. The error is the ReferenceError of reading `height` in its temporal dead zone. |
| Textures.PolarCapsCover | src/utils/createPlanetTexture.js:357-360 | A cap fills full-width rows from startY·h to endY·h. The two caps are white and cover [0, 0.1h) and [0.9h, h). |
| Textures.RingRowShape | src/utils/createPlanetTexture.js:233-243 | Row i gets a one-pixel full-width band (230, 220, 180) with opacity in [0.7, 1.0). A second dark band on the same row follows exactly when the row's second draw is below 0.05. |
| Textures.RingRowsLength | src/utils/createPlanetTexture.js:233-243 | The rings loop makes between 2 and 4 calls per row, and the rows appear in order. |
| Textures.BandShape | src/utils/createPlanetTexture.js:253-259 | An intended band spans the full width, starts on the canvas, and has height in [least, least + span). |
| Textures.BandRunLength | src/utils/createPlanetTexture.js:253-259 | n intended bands make 2n calls. |
| Textures.BandRunSlices | src/utils/createPlanetTexture.js:253-259 | Band j of the intended loop is calls 2j and 2j+1. |
| Textures.BandRunShape | src/utils/createPlanetTexture.js:253-259 | Every intended Uranus or Neptune band spans the width, starts on the canvas, and has height in [least, least + span): 5 to 25 pixels for Uranus, 3 to 18 for Neptune. |
| Textures.FlatFills | src/utils/createPlanetTexture.js:357-360 | Base fills and polar caps are rectangles, not filled paths. |
| Textures.PolygonFills | src/utils/createPlanetTexture.js:344-353 | A continent polygon fills exactly one path. |
| Textures.ContinentFills | src/utils/createPlanetTexture.js:327-354 | One `drawContinent` call fills exactly one path. |
| Textures.ContinentRunFills | src/utils/createPlanetTexture.js:132-134 | n calls of `drawContinent` fill n paths. |
| Textures.StampCountsOfRecipes | src/utils/createPlanetTexture.js:57-123 | Filled paths per recipe: 50 sun flares, 2000 Mercury craters, 10 Venus vortices, 1000 Moon craters, and 1000 default noise dots. |
| Textures.MarsStampCount | src/utils/createPlanetTexture.js:163-183 | Mars has 1000 dust marks; its polar caps add no path. |
| Textures.CloudStampCount | src/utils/createPlanetTexture.js:142-160 | The cloud layer is cleared, then 50 puffs are filled. |
| Textures.EarthContinentCount | src/utils/createPlanetTexture.js:126-139 | The Earth has exactly 7 filled continents. |
| Textures.StampsAfterBase | src/utils/createPlanetTexture.js:57-81 | A base fill followed by n stamps fills n paths. |
| Textures.DrawBase | src/utils/createPlanetTexture.js:86-87 | Appends the fill style, then a full-canvas `fillRect`. |
| Textures.DrawPolarCap | src/utils/createPlanetTexture.js:357-360 | Appends exactly the cap's two calls. |
| Textures.DrawPolarCaps | src/utils/createPlanetTexture.js:137-138 | Appends the north cap, then the south cap. |
| Textures.DrawSun | src/utils/createPlanetTexture.js:57-81 | Appends the three-stop radial base gradient, then 50 flares. |
| Textures.DrawMercury | src/utils/createPlanetTexture.js:84-100 | Appends the grey base, then 2000 craters. |
| Textures.DrawVenus | src/utils/createPlanetTexture.js:103-123 | Appends the base, then 10 vortices. |
| Textures.DrawEarth | src/utils/createPlanetTexture.js:126-139 | Appends the ocean, then 7 continents, then both caps. |
| Textures.DrawLand | src/utils/createPlanetTexture.js:126-139 | Appends the ocean, then n continents, then the caps. |
| Textures.DrawContinents | src/utils/createPlanetTexture.js:132-134 | The loop appends exactly the run of n continents. Each continent starts its draws where the previous one stopped. |
| Textures.DrawEarthClouds | src/utils/createPlanetTexture.js:142-160 | Appends a `clearRect`, then 50 cloud puffs. |
| Textures.DrawMars | src/utils/createPlanetTexture.js:163-183 | Appends the base, then 1000 dust marks, then both caps. |
| Textures.DrawJupiter | src/utils/createPlanetTexture.js:186-210 | Appends the seven-stop horizontal gradient, then the red-spot ellipse at (0.7w, 0.4h) with radii (0.15w, 0.08h). |
| Textures.DrawSaturn | src/utils/createPlanetTexture.js:213-226 | Appends the seven-stop horizontal gradient only. |
| Textures.DrawSaturnRings | src/utils/createPlanetTexture.js:229-244 | Appends a `clearRect`, then one ring row per canvas row, in order. |
| Textures.DrawUranus | src/utils/createPlanetTexture.js:247-260 | As written, appends the base fill and then throws the ReferenceError before any band is drawn. |
| Textures.DrawNeptune | src/utils/createPlanetTexture.js:263-286 | As written, appends the base fill and the dark spot, then throws the same ReferenceError. |
| Textures.DrawNeptuneSpot | src/utils/createPlanetTexture.js:269-276 | Appends the circle at (0.3w, 0.6h) of radius 0.1w, filled '#20379C'. |
| Textures.DrawBands | src/utils/createPlanetTexture.js:253-259 | The corrected band loop appends exactly n bands. |
| Textures.DrawUranusBands | src/utils/createPlanetTexture.js:247-260 | Corrected Uranus: the base fill, then 20 bands 5 to 25 pixels high. |
| Textures.DrawNeptuneBands | src/utils/createPlanetTexture.js:263-286 | Corrected Neptune: the base fill, the spot, then 30 bands 3 to 18 pixels high. |
| Textures.DrawMoon | src/utils/createPlanetTexture.js:289-305 | Appends the grey base, then 1000 craters. |
| Textures.DrawDefault | src/utils/createPlanetTexture.js:308-324 | Appends the base in the given colour, then 1000 noise dots. |
| Textures.RunRecipe | src/utils/createPlanetTexture.js:12-51 | The selected recipe either throws its error and nothing is returned, or appends exactly its drawing. |
| Textures.CreatePlanetTexture | src/utils/createPlanetTexture.js:4-54 | Returns a texture of the chosen size holding exactly the selected recipe's drawing, or the error the recipe throws. |
| TextureLoader.CreateDefaultTexture | src/utils/loadPlanetTextures.js:12-36 | Returns the 256 × 256 fallback canvas: the colour, then 1000 dots. |
| TextureLoader.FallbackCanvas | src/utils/loadPlanetTextures.js:12-36 | The fallback canvas is 256 × 256. It has 4002 calls: a base fill in the given colour, then exactly 1000 filled dots. |
| TextureLoader.FallbackDots | src/utils/loadPlanetTextures.js:22-32 | Dot j is a full circle on the canvas with radius in [0.5, 1.0). It is filled white with alpha brightness·0.2 in [0.14, 0.2). |
| TextureLoader.LoadPlanetTexture | src/utils/loadPlanetTextures.js:69-82 | Returns the generated texture, or on a throw the fallback in `planetColors[planet] \|\| '#FFFFFF'`. The fallback draws continue after the draw the failed recipe took. |
| TextureLoader.LoadedTextures | src/utils/loadPlanetTextures.js:69-82 | Loading never fails. Every body except Uranus and Neptune gets its 512 × 512 generated texture. Uranus and Neptune get the 256 × 256 fallback in '#CAEAE8' and '#3D58E5'. |
| TextureLoader.TableKeys | src/utils/loadPlanetTextures.js:39-50 | The colour table has ten distinct keys and lacks 'earthClouds' and 'saturnRings', so the loader's twelve keys are distinct. |
| TextureLoader.LoadEach | src/utils/loadPlanetTextures.js:90-92 | The `forEach` produces a table whose keys are exactly the given keys, each holding its loaded texture. |
| TextureLoader.LoadIfMissing | src/utils/loadPlanetTextures.js:95-101 | A key already present is left alone. A missing key is loaded and added. |
| TextureLoader.LoadExtras | src/utils/loadPlanetTextures.js:95-101 | Both guards fire, adding the cloud and ring textures as calls 11 and 12. |
| TextureLoader.LoadTable | src/utils/loadPlanetTextures.js:85-104 | The result holds exactly the keys and the extras, each with the texture of its load call. |
| TextureLoader.LoadAllPlanetTextures | src/utils/loadPlanetTextures.js:85-104 | The table has exactly the twelve keys: the ten colour-table bodies in order, then 'earthClouds' and 'saturnRings'. Each holds `loadPlanetTexture` of its key. |

## Left out

- The camera's `lookAt` calls are not modelled: the initial one at src/components/CameraControls.js:12 and the per-frame one at src/components/CameraControls.js:136. They set the camera's orientation in three.js's scene graph; the model tracks only the camera position.
- Scene assembly and rendering are not modelled: JSX, meshes, materials, lights, labels and `Line` objects. This includes `getWorldPosition`/`setPlanetPosition` in src/components/Planet.js:54-56. They live in three.js's scene graph.
- Orbit-line geometry is not modelled: the asteroid's `EllipseCurve` (src/components/Asteroid.js:52-71) and the sphere geometries. These are three.js constructors with no logic of their own.
- Canvas rasterisation is not modelled. Gradients, arcs and fills are recorded as calls and never turned into pixels.
- src/utils/createCircleTexture.js is not part of this model. It is a fixed sequence of canvas calls with no logic.
- The form and list components are not part of this model: src/components/Controls.js, src/components/SpaceObjectEditor.js and src/components/SpaceObjectsList.js. Their perihelion/aphelion slider bounds appear only as the comet model's precondition.
- Floating point is not modelled. All arithmetic is on `real`, with no Float32 rounding, NaN or infinity.
  - `THREE.Color` hex parsing and sRGB conversion are left out.
- `Math` functions are not computed. cos, sin, sqrt, cbrt and acos are constrained only by the laws in `Common.MathLib.Lawful`.
- React lifecycle is not modelled. A frame is one `Frame` call. A `useMemo` recomputation is a fresh generation on changed parameters. Mount/unmount is a `mounted` flag per ref.
- `Date.now()` is not read. The id of an added body is a parameter.
- Randomness is an explicit input. `Math.random()` is a stream of draws given to each operation.
  - The one program-wide stream that successive `loadPlanetTexture` calls share is modelled as a separate stream `draws(i)` for call i.
  - Any concrete interleaving of that shared stream is one instance of this.
- Console logging in the loader and the `textureUrls` table are left out. Both are unused by the returned textures.
- TextureLoader.LoadAllPlanetTextures: states that the table's keys are exactly the twelve tags, as a membership equivalence, rather than stating its cardinality 12 directly. `TableKeys` proves the twelve tags distinct.
- Galaxy.Generate: requires galaxyRadius > 0. With radius 0 the source computes 0/0 for the colour mix and produces NaN, which the real-number model cannot express.
- Comets.Comet.constructor: requires 0 < perihelion ≤ aphelion. With perihelion + aphelion = 0 the source divides by zero.
- Comets.TailDirectionUnit: requires a comet position away from the sun. three.js leaves the zero vector unnormalised; this case is modelled in `Common.Normalize` but nothing is proved about it.

## Findings

| source | as written | input that shows it | evidently intended | confidence | as-written member | corrected member |
|---|---|---|---|---|---|---|
| src/components/Comet.js:117-118 | The tail direction is `(-x, -y, -z).normalize()`, the unit vector from the comet towards the sun. The comment above it says the tail should extend away from the sun. | A comet at (10, 0, 0) with a current tail length of 4 gets direction (-1, 0, 0). Tail particle 50 then sits at (8, 0, 0) before jitter, nearer the sun than the comet. | Direction `(x, y, z).normalize()`, from the sun through the comet, so the tail streams away from the sun. | high; not executed | Comets.TailAxisSunward | Comets.TailAxisAntiSunward |
| src/utils/createPlanetTexture.js:253-255 | In the Uranus band loop, `const height` is declared in the loop body and shadows the parameter, so `Math.random() * height` reads it in its temporal dead zone. The same happens at src/utils/createPlanetTexture.js:279-281 for Neptune. | `createPlanetTexture('uranus')` throws a ReferenceError on the first iteration, and so does 'neptune'. The loader then shows the 256 × 256 fallback for both planets instead of the banded texture. | The band height is kept in a variable of its own. Uranus then draws 20 bands 5 to 25 pixels high and Neptune 30 bands 3 to 18 pixels high, each starting on the canvas. | high; not executed | Textures.UranusNeptuneThrow | Textures.BandRunShape |

The corrected definitions are `Comets.AntiSunwardDirection`, and `Textures.DrawUranusBands` / `Textures.DrawNeptuneBands` over `Textures.DrawBands`. The members that model the program itself keep the behaviour as written, because they describe what the scene does today:

- `Comets.Comet.Frame` keeps the sunward tail.
- `Textures.RunRecipe`, `Textures.CreatePlanetTexture` and `TextureLoader.LoadedTextures` keep the ReferenceError and its fallback.
