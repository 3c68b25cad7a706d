/**
 * The `CameraControls` component: an orbiting camera driven by the mouse. Event
 * handlers move targets (azimuth, zenith, zoom) within their limits; every frame
 * the current values close a tenth of the gap to their targets and the camera is
 * placed on the sphere of radius `zoom` around the focus target.
 */
module Camera {
  import opened Common

  /** `zoom.current.min` and `zoom.current.max`. */
  const ZoomMin: real := 5.0
  const ZoomMax: real := 100.0
  /** The limits the zenith target is clamped to, `0.1` and `Math.PI / 2 - 0.1`. */
  const ZenithMin: real := 0.1
  const ZenithMax: real := PI / 2.0 - 0.1
  /** The zoom targets the two focus modes set. */
  const GalaxyZoom: real := 30.0
  const SolarSystemZoom: real := 10.0

  /** `value += (target - value) * 0.1`: one easing step. */
  function Ease(value: real, target: real): real {
    value + (target - value) * 0.1
  }

  /**
   * An easing step closes a tenth of the gap: the new gap is 0.9 times the old
   * one, and the new value lies between the old value and the target.
   */
  lemma EaseGap(value: real, target: real)
    ensures target - Ease(value, target) == 0.9 * (target - value)
    ensures Between(value, target, Ease(value, target))
  {
    LerpBetween(value, target, 0.1);
  }

  /** An easing step from a value in [lo, hi] towards a target in [lo, hi] stays in [lo, hi]. */
  lemma EaseInRange(value: real, target: real, lo: real, hi: real)
    requires lo <= value <= hi && lo <= target <= hi
    ensures lo <= Ease(value, target) <= hi
  {
    EaseGap(value, target);
  }

  /** The value after `n` frames of easing towards a fixed target. */
  function EaseFrames(value: real, target: real, n: nat): real {
    if n == 0 then value else Ease(EaseFrames(value, target, n - 1), target)
  }

  function Pow(x: real, n: nat): real {
    if n == 0 then 1.0 else x * Pow(x, n - 1)
  }

  /** After `n` frames towards a fixed target the gap has shrunk to `0.9^n` of what it was. */
  lemma {:induction false} EaseFramesGap(value: real, target: real, n: nat)
    ensures target - EaseFrames(value, target, n) == Pow(0.9, n) * (target - value)
  {
    if n > 0 {
      EaseFramesGap(value, target, n - 1);
      var prev := EaseFrames(value, target, n - 1);
      EaseGap(prev, target);
      assert Pow(0.9, n) * (target - value) == 0.9 * (Pow(0.9, n - 1) * (target - value));
    }
  }

  /** `target + r * (sin(phi) cos(theta), cos(phi), sin(phi) sin(theta))`. */
  function Placement(m: MathLib, target: Vec3, r: real, phi: real, theta: real): Vec3 {
    Vec3(target.x + r * m.sin(phi) * m.cos(theta),
         target.y + r * m.cos(phi),
         target.z + r * m.sin(phi) * m.sin(theta))
  }

  /** The camera is on the sphere of radius `r` around the focus target. */
  lemma PlacementDistance(m: MathLib, target: Vec3, r: real, phi: real, theta: real)
    requires m.Lawful()
    ensures Placement(m, target, r, phi, theta).Minus(target).Norm2() == r * r
  {
    var d := Placement(m, target, r, phi, theta).Minus(target);
    var a := r * m.sin(phi);
    assert d.x == a * m.cos(theta) && d.z == a * m.sin(theta) && d.y == r * m.cos(phi);
    CircleSquares(m, theta, a, d.x, d.z);
    CircleSquares(m, phi, r, d.y, a);
    assert d.Norm2() == (d.x * d.x + d.z * d.z) + d.y * d.y;
  }

  /** The camera placement of one frame: a point on the sphere of radius `r` around the target. */
  method ComputePlacement(m: MathLib, target: Vec3, r: real, phi: real, theta: real) returns (p: Vec3)
    ensures p == Placement(m, target, r, phi, theta)
    ensures m.Lawful() ==> p.Minus(target).Norm2() == r * r
  {
    var x := target.x + r * m.sin(phi) * m.cos(theta);
    var y := target.y + r * m.cos(phi);
    var z := target.z + r * m.sin(phi) * m.sin(theta);
    p := Vec3(x, y, z);
    if m.Lawful() {
      PlacementDistance(m, target, r, phi, theta);
    }
  }

  class CameraRig {
    const math: MathLib

    /** `mouse.current`. */
    var down: bool
    var prevX: real
    var prevY: real
    var button: int
    /** `zoom.current.value` and `.target`. */
    var zoom: real
    var zoomTarget: real
    /** `target.current`: the point the camera looks at. */
    var target: Vec3
    /** `rotation.current` and `rotation.current.target`. */
    var azimuth: real
    var zenith: real
    var azimuthTarget: real
    var zenithTarget: real
    /** `camera.position`. */
    var position: Vec3

    /**
     * The limits the controller keeps: zoom and zenith, current and target, within
     * their ranges, and no button recorded while the mouse is up.
     */
    ghost predicate Valid()
      reads this
    {
      && ZoomMin <= zoomTarget <= ZoomMax && ZoomMin <= zoom <= ZoomMax
      && ZenithMin <= zenithTarget <= ZenithMax && ZenithMin <= zenith <= ZenithMax
      && (!down ==> button == -1)
    }

    /** The refs' initial values, and the camera put at (25, 15, 25) on mount. */
    constructor (math: MathLib)
      ensures Valid()
      ensures this.math == math
      ensures !down && prevX == 0.0 && prevY == 0.0 && button == -1
      ensures zoom == 30.0 && zoomTarget == 30.0 && target == Origin
      ensures azimuth == PI / 4.0 && zenith == PI / 6.0
      ensures azimuthTarget == PI / 4.0 && zenithTarget == PI / 6.0
      ensures position == Vec3(25.0, 15.0, 25.0)
    {
      this.math := math;
      down, prevX, prevY, button := false, 0.0, 0.0, -1;
      zoom, zoomTarget := 30.0, 30.0;
      target := Origin;
      azimuth, zenith := PI / 4.0, PI / 6.0;
      azimuthTarget, zenithTarget := PI / 4.0, PI / 6.0;
      position := Vec3(25.0, 15.0, 25.0);
    }

    /**
     * The focus-mode effect: `"galaxy"` aims at the origin with zoom target 30,
     * `"solarSystem"` aims at `solarSystemPosition` with zoom target 10, and any
     * other mode changes nothing.
     */
    method Focus(focusMode: string, solarSystemPosition: Vec3)
      requires Valid()
      modifies this
      ensures Valid()
      ensures focusMode == "galaxy" ==> zoomTarget == GalaxyZoom && target == Origin
      ensures focusMode == "solarSystem" ==> zoomTarget == SolarSystemZoom && target == solarSystemPosition
      ensures focusMode != "galaxy" && focusMode != "solarSystem" ==>
        zoomTarget == old(zoomTarget) && target == old(target)
      ensures down == old(down) && prevX == old(prevX) && prevY == old(prevY) && button == old(button)
      ensures zoom == old(zoom) && azimuth == old(azimuth) && zenith == old(zenith)
      ensures azimuthTarget == old(azimuthTarget) && zenithTarget == old(zenithTarget)
      ensures position == old(position)
    {
      if focusMode == "galaxy" {
        zoomTarget := 30.0;
        target := Origin;
      } else if focusMode == "solarSystem" {
        zoomTarget := 10.0;
        target := solarSystemPosition;
      }
    }

    /** `onMouseDown`: remember the mouse position and the button. */
    method MouseDown(clientX: real, clientY: real, pressed: int)
      requires Valid()
      modifies this
      ensures Valid()
      ensures down && prevX == clientX && prevY == clientY && button == pressed
      ensures zoom == old(zoom) && zoomTarget == old(zoomTarget) && target == old(target)
      ensures azimuth == old(azimuth) && zenith == old(zenith)
      ensures azimuthTarget == old(azimuthTarget) && zenithTarget == old(zenithTarget)
      ensures position == old(position)
    {
      down := true;
      prevX := clientX;
      prevY := clientY;
      button := pressed;
    }

    /** `onMouseUp`: release, forgetting the button. */
    method MouseUp()
      requires Valid()
      modifies this
      ensures Valid()
      ensures !down && button == -1
      ensures prevX == old(prevX) && prevY == old(prevY)
      ensures zoom == old(zoom) && zoomTarget == old(zoomTarget) && target == old(target)
      ensures azimuth == old(azimuth) && zenith == old(zenith)
      ensures azimuthTarget == old(azimuthTarget) && zenithTarget == old(zenithTarget)
      ensures position == old(position)
    {
      down := false;
      button := -1;
    }

    /**
     * `onMouseMove`. With the mouse up nothing changes. While dragging, the
     * mouse position is remembered, and a drag with the left button (0) also turns the
     * azimuth target by `-deltaX * 0.01` and the zenith target by `-deltaY * 0.01`,
     * clamped to [ZenithMin, ZenithMax].
     */
    method MouseMove(clientX: real, clientY: real)
      requires Valid()
      modifies this
      ensures Valid()
      ensures !old(down) ==> unchanged(this)
      ensures old(down) ==> prevX == clientX && prevY == clientY
      ensures old(down) && old(button) == 0 ==>
        && azimuthTarget == old(azimuthTarget) - (clientX - old(prevX)) * 0.01
        && zenithTarget == Clamp(ZenithMin, ZenithMax, old(zenithTarget) - (clientY - old(prevY)) * 0.01)
      ensures old(down) && old(button) != 0 ==>
        azimuthTarget == old(azimuthTarget) && zenithTarget == old(zenithTarget)
      ensures down == old(down) && button == old(button)
      ensures zoom == old(zoom) && zoomTarget == old(zoomTarget) && target == old(target)
      ensures azimuth == old(azimuth) && zenith == old(zenith) && position == old(position)
    {
      if down {
        var deltaX := clientX - prevX;
        var deltaY := clientY - prevY;
        if button == 0 {
          azimuthTarget := azimuthTarget - deltaX * 0.01;
          zenithTarget := Max(0.1, Min(PI / 2.0 - 0.1, zenithTarget - deltaY * 0.01));
        }
        prevX := clientX;
        prevY := clientY;
      }
    }

    /** `onWheel`: move the zoom target by `deltaY * 0.05`, clamped to [ZoomMin, ZoomMax]. */
    method Wheel(deltaY: real)
      requires Valid()
      modifies this
      ensures Valid()
      ensures zoomTarget == Clamp(ZoomMin, ZoomMax, old(zoomTarget) + deltaY * 0.05)
      ensures down == old(down) && prevX == old(prevX) && prevY == old(prevY) && button == old(button)
      ensures zoom == old(zoom) && target == old(target)
      ensures azimuth == old(azimuth) && zenith == old(zenith)
      ensures azimuthTarget == old(azimuthTarget) && zenithTarget == old(zenithTarget)
      ensures position == old(position)
    {
      zoomTarget := Max(ZoomMin, Min(ZoomMax, zoomTarget + deltaY * 0.05));
    }

    /**
     * One `useFrame` callback: ease azimuth, zenith and zoom towards their targets,
     * then place the camera on the sphere around the focus target.
     */
    method Frame()
      requires Valid()
      modifies this
      ensures Valid()
      ensures azimuth == Ease(old(azimuth), azimuthTarget)
      ensures zenith == Ease(old(zenith), zenithTarget)
      ensures zoom == Ease(old(zoom), zoomTarget)
      ensures position == Placement(math, target, zoom, zenith, azimuth)
      ensures down == old(down) && prevX == old(prevX) && prevY == old(prevY) && button == old(button)
      ensures zoomTarget == old(zoomTarget) && target == old(target)
      ensures azimuthTarget == old(azimuthTarget) && zenithTarget == old(zenithTarget)
    {
      EaseInRange(zenith, zenithTarget, ZenithMin, ZenithMax);
      EaseInRange(zoom, zoomTarget, ZoomMin, ZoomMax);
      azimuth := azimuth + (azimuthTarget - azimuth) * 0.1;
      zenith := zenith + (zenithTarget - zenith) * 0.1;
      zoom := zoom + (zoomTarget - zoom) * 0.1;
      var r := zoom;
      var phi := zenith;
      var theta := azimuth;
      position := ComputePlacement(math, target, r, phi, theta);
    }
  }

  /** After a frame the camera is at distance `zoom`, between 5 and 100, from the point it looks at. */
  lemma CameraOnSphere(rig: CameraRig)
    requires rig.Valid() && rig.math.Lawful()
    requires rig.position == Placement(rig.math, rig.target, rig.zoom, rig.zenith, rig.azimuth)
    ensures rig.position.Minus(rig.target).Norm2() == rig.zoom * rig.zoom
    ensures ZoomMin * ZoomMin <= rig.position.Minus(rig.target).Norm2() <= ZoomMax * ZoomMax
  {
    PlacementDistance(rig.math, rig.target, rig.zoom, rig.zenith, rig.azimuth);
    SquareBetween(ZoomMin, rig.zoom, ZoomMax, rig.position.Minus(rig.target).Norm2());
  }
}
