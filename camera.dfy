/**
 * The virtual camera of shapes/Camera.cs: an azimuth and an elevation in
 * degrees, an origin, and a cached frame (the camera vector and the two axes
 * spanning the view plane) onto which world points are projected
 * orthographically.
 */
module CameraView {
  import opened VectorMath

  const FullTurn: real := 360.0
  const MaxElevation: real := 180.0

  /** Truncation toward zero, as a C# cast from double to an integer does. */
  function Trunc(x: real): (t: int)
    ensures 0.0 <= x ==> t as real <= x < t as real + 1.0
    ensures x < 0.0 ==> t as real - 1.0 < x <= t as real
  {
    if 0.0 <= x then x.Floor else -((-x).Floor)
  }

  /**
   * C#'s `a % 360` on doubles: the remainder of a truncating division, which
   * keeps the sign of the dividend. Unlike a floor modulo it is negative for a
   * negative dividend, so the result lies in (-360, 360), not in [0, 360).
   */
  function CsRem360(a: real): (r: real)
    ensures -FullTurn < r < FullTurn
    ensures 0.0 <= a ==> 0.0 <= r
    ensures a <= 0.0 ==> r <= 0.0
  {
    a - FullTurn * (Trunc(a / FullTurn) as real)
  }

  /**
   * CsRem360 is the one remainder that differs from the dividend by a whole
   * number of turns, lies strictly between -360 and 360 and has the sign of
   * the dividend.
   */
  lemma CsRem360Unique(a: real, k: int, r: real)
    requires a == (k as real) * FullTurn + r
    requires -FullTurn < r < FullTurn
    requires 0.0 < a ==> 0.0 <= r
    requires a < 0.0 ==> r <= 0.0
    ensures CsRem360(a) == r
  {
    var q := a / FullTurn;
    assert q == k as real + r / FullTurn;
    assert Trunc(q) == k;
  }

  /** CsRem360 differs from its dividend by a whole number of turns. */
  lemma CsRem360Congruent(a: real)
    ensures var turns := (a - CsRem360(a)) / FullTurn; turns == turns.Floor as real
  {
    assert (a - CsRem360(a)) / FullTurn == Trunc(a / FullTurn) as real;
  }

  /** An angle already inside (-360, 360) is left alone. */
  lemma CsRem360KeepsSmall(a: real)
    requires -FullTurn < a < FullTurn
    ensures CsRem360(a) == a
  {
    CsRem360Unique(a, 0, a);
  }

  /** Turning right from the start gives -2.5 degrees, not 357.5. */
  lemma TurnRightFromStart()
    ensures CsRem360(0.0 + -2.5) == -2.5
    ensures CsRem360(0.0 + -2.5) != 357.5
  {
    CsRem360KeepsSmall(-2.5);
  }

  function Radians(lib: MathLib, degrees: real): real {
    degrees / 180.0 * lib.pi
  }

  /** The camera vector and the two view-plane axes. */
  datatype Frame = Frame(cameraVector: Vec3, axis1: Vec3, axis2: Vec3)

  /** The camera vector before normalisation: the radial direction of the two angles (in radians). */
  function Radial(lib: MathLib, a: real, e: real): Vec3 {
    Vec3(lib.cos(a) * lib.sin(e), lib.sin(a) * lib.sin(e), lib.cos(e))
  }

  /** The horizontal axis before normalisation: the direction in which the azimuth grows. */
  function AzimuthTangent(lib: MathLib, a: real): Vec3 {
    Vec3(-lib.sin(a), lib.cos(a), 0.0)
  }

  /** The vertical axis before normalisation: the direction in which the elevation grows. */
  function ElevationTangent(lib: MathLib, a: real, e: real): Vec3 {
    Vec3(lib.cos(e) * lib.cos(a), lib.cos(e) * lib.sin(a), -lib.sin(e))
  }

  /** The frame CalculateCameraVector derives from the two angles. */
  function FrameOf(lib: MathLib, azimuth: real, elevation: real): Frame {
    var a := Radians(lib, azimuth);
    var e := Radians(lib, elevation);
    Frame(lib.normalize(Radial(lib, a, e)), lib.normalize(AzimuthTangent(lib, a)), lib.normalize(ElevationTangent(lib, a, e)))
  }

  /** The angle one full turn (2π) further on. */
  function PlusTurn(lib: MathLib, x: real): real {
    x + 2.0 * lib.pi
  }

  /** Sine and cosine repeat after a full turn. */
  ghost predicate FullTurnPeriodic(lib: MathLib) {
    forall x {:trigger PlusTurn(lib, x)} ::
      lib.sin(PlusTurn(lib, x)) == lib.sin(x) && lib.cos(PlusTurn(lib, x)) == lib.cos(x)
  }

  /** The angle k full turns further on. */
  function Turns(lib: MathLib, x: real, k: nat): real {
    if k == 0 then x else PlusTurn(lib, Turns(lib, x, k - 1))
  }

  /** Whole turns added to an angle do not change its sine and cosine. */
  lemma {:induction false} WholeTurns(lib: MathLib, x: real, k: nat)
    requires FullTurnPeriodic(lib)
    ensures lib.sin(Turns(lib, x, k)) == lib.sin(x) && lib.cos(Turns(lib, x, k)) == lib.cos(x)
  {
    if k > 0 {
      WholeTurns(lib, x, k - 1);
      var y := Turns(lib, x, k - 1);
      assert lib.sin(PlusTurn(lib, y)) == lib.sin(y) && lib.cos(PlusTurn(lib, y)) == lib.cos(y);
    }
  }

  /** n whole turns in degrees are n full turns in radians. */
  lemma {:induction false} RadiansOfTurns(lib: MathLib, low: real, high: real, n: nat)
    requires high == low + (n as real) * FullTurn
    ensures Radians(lib, high) == Turns(lib, Radians(lib, low), n)
    decreases n
  {
    if n > 0 {
      var j: nat := n - 1;
      var before := high - FullTurn;
      RadiansOfTurns(lib, low, before, j);
      assert high / 180.0 == before / 180.0 + 2.0;
      assert (before / 180.0 + 2.0) * lib.pi == before / 180.0 * lib.pi + 2.0 * lib.pi;
      assert Radians(lib, high) == PlusTurn(lib, Radians(lib, before));
    }
  }

  /**
   * Wrapping the azimuth does not turn the view: with a sine and cosine of
   * period 2π, the frame of `a % 360` is the frame of `a`.
   */
  lemma WrapKeepsFrame(lib: MathLib, azimuth: real, elevation: real)
    requires FullTurnPeriodic(lib)
    ensures FrameOf(lib, CsRem360(azimuth), elevation) == FrameOf(lib, azimuth, elevation)
  {
    var r := CsRem360(azimuth);
    var k := Trunc(azimuth / FullTurn);
    assert azimuth == r + (k as real) * FullTurn;
    var low, high, n: nat := r, azimuth, 0;
    if 0 <= k {
      low, high, n := r, azimuth, k;
    } else {
      low, high, n := azimuth, r, -k;
    }
    RadiansOfTurns(lib, low, high, n);
    WholeTurns(lib, Radians(lib, low), n);
    FrameFromTrig(lib, low, high, elevation);
  }

  /** The frame sees the azimuth only through its sine and cosine. */
  lemma FrameFromTrig(lib: MathLib, a1: real, a2: real, elevation: real)
    requires lib.sin(Radians(lib, a1)) == lib.sin(Radians(lib, a2))
    requires lib.cos(Radians(lib, a1)) == lib.cos(Radians(lib, a2))
    ensures FrameOf(lib, a1, elevation) == FrameOf(lib, a2, elevation)
  {
    var r1, r2, e := Radians(lib, a1), Radians(lib, a2), Radians(lib, elevation);
    assert Radial(lib, r1, e) == Radial(lib, r2, e);
    assert ElevationTangent(lib, r1, e) == ElevationTangent(lib, r2, e);
  }

  /** The horizontal screen axis does not depend on the elevation. */
  lemma Axis1IgnoresElevation(lib: MathLib, azimuth: real, e1: real, e2: real)
    ensures FrameOf(lib, azimuth, e1).axis1 == FrameOf(lib, azimuth, e2).axis1
  {
  }

  /** Orthographic projection of `pos` onto the plane of `frame` through `origin`. */
  function Project(frame: Frame, origin: Vec3, pos: Vec3): (p: Vec2)
    ensures p.x == Dot(frame.axis1, pos) - Dot(frame.axis1, origin)
    ensures p.y == Dot(frame.axis2, pos) - Dot(frame.axis2, origin)
  {
    Vec2(Dot(frame.axis1, Sub(pos, origin)), Dot(frame.axis2, Sub(pos, origin)))
  }

  /** Moving the camera and the point by the same offset leaves the projection unchanged. */
  lemma ProjectTranslationInvariant(frame: Frame, origin: Vec3, pos: Vec3, change: Vec3)
    ensures Project(frame, Add(origin, change), Add(pos, change)) == Project(frame, origin, pos)
  {
    SubShift(pos, origin, change);
  }

  /** The camera's own origin projects to the centre of the view plane. */
  lemma ProjectOriginIsCentre(frame: Frame, origin: Vec3)
    ensures Project(frame, origin, origin) == Zero2
  {
  }

  /** The camera-vector component of a point is discarded by the projection. */
  lemma ProjectIgnoresCameraVector(frame: Frame, v: Vec3, origin: Vec3, pos: Vec3)
    ensures Project(frame.(cameraVector := v), origin, pos) == Project(frame, origin, pos)
  {
  }

  class Camera {
    const lib: MathLib
    var CameraVector: Vec3
    var CameraOrigin: Vec3
    var Axis1: Vec3
    var Axis2: Vec3
    var Elevation: real
    var Azimuth: real

    /** What every mutator keeps: the elevation range and the wrapped azimuth. */
    ghost predicate Valid()
      reads this
    {
      0.0 <= Elevation <= MaxElevation && -FullTurn < Azimuth < FullTurn
    }

    function CurrentFrame(): Frame
      reads this
    {
      Frame(CameraVector, Axis1, Axis2)
    }

    /** The frame is never computed here: both axes keep their zero default. */
    constructor (lib: MathLib)
      ensures Valid()
      ensures this.lib == lib
      ensures Azimuth == 0.0 && Elevation == 90.0
      ensures CameraVector == Zero3 && CameraOrigin == Zero3
      ensures Axis1 == Zero3 && Axis2 == Zero3
    {
      this.lib := lib;
      CameraVector, CameraOrigin := Zero3, Zero3;
      Axis1, Axis2 := Zero3, Zero3;
      Azimuth, Elevation := 0.0, 90.0;
      // the closing ModifyOrigin(0, 0, 0) adds the zero vector and changes nothing
    }

    method SetAzimuth(newAngle: real)
      modifies this`Azimuth, this`CameraVector, this`Axis1, this`Axis2
      ensures Azimuth == CsRem360(newAngle)
      ensures CurrentFrame() == FrameOf(lib, Azimuth, Elevation)
      ensures old(Valid()) ==> Valid()
    {
      Azimuth := CsRem360(newAngle);
      CalculateCameraVector();
    }

    method AddToAzimuth(increment: real)
      modifies this`Azimuth, this`CameraVector, this`Axis1, this`Axis2
      ensures Azimuth == CsRem360(old(Azimuth) + increment)
      ensures CurrentFrame() == FrameOf(lib, Azimuth, Elevation)
      ensures old(Valid()) ==> Valid()
    {
      Azimuth := CsRem360(Azimuth + increment);
      CalculateCameraVector();
    }

    method CalculateCameraVector()
      modifies this`CameraVector, this`Axis1, this`Axis2
      ensures CurrentFrame() == FrameOf(lib, Azimuth, Elevation)
    {
      var frame := FrameOf(lib, Azimuth, Elevation);
      CameraVector := frame.cameraVector;
      Axis1 := frame.axis1;
      Axis2 := frame.axis2;
    }

    method GetCameraVector() returns (v: Vec3)
      modifies this`CameraVector, this`Axis1, this`Axis2
      ensures CurrentFrame() == FrameOf(lib, Azimuth, Elevation)
      ensures v == CameraVector
    {
      CalculateCameraVector();
      v := CameraVector;
    }

    /** The point's position in the view plane (the camera-vector component is dropped). */
    function CastToLocal(pos: Vec3): (p: Vec2)
      reads this
      ensures p == Project(Frame(Zero3, Axis1, Axis2), CameraOrigin, pos)
      ensures pos == CameraOrigin ==> p == Zero2
    {
      Project(CurrentFrame(), CameraOrigin, pos)
    }

    method CastArrayToLocal(toCast: array<Vec3>, offset: Vec2) returns (res: array<Vec2>)
      ensures fresh(res) && res.Length == toCast.Length
      ensures forall i :: 0 <= i < res.Length ==> res[i] == Sub2(CastToLocal(toCast[i]), offset)
    {
      res := new Vec2[toCast.Length];
      for i := 0 to toCast.Length
        invariant forall j :: 0 <= j < i ==> res[j] == Sub2(CastToLocal(toCast[j]), offset)
      {
        var local := Sub2(CastToLocal(toCast[i]), offset);
        res[i] := Vec2(local.x, local.y);
      }
    }

    /** The one-argument overload: no offset. */
    method CastArrayToLocalNoOffset(toCast: array<Vec3>) returns (res: array<Vec2>)
      ensures fresh(res) && res.Length == toCast.Length
      ensures forall i :: 0 <= i < res.Length ==> res[i] == CastToLocal(toCast[i])
    {
      res := CastArrayToLocal(toCast, Zero2);
    }

    method ModifyOrigin(change: Vec3)
      modifies this`CameraOrigin
      ensures CameraOrigin == Add(old(CameraOrigin), change)
    {
      CameraOrigin := Add(CameraOrigin, change);
    }

    /** Out-of-range requests are ignored; the frame is not recomputed either way. */
    method ModifyElevation(change: real)
      modifies this`Elevation
      ensures 0.0 <= old(Elevation) + change <= MaxElevation ==> Elevation == old(Elevation) + change
      ensures !(0.0 <= old(Elevation) + change <= MaxElevation) ==> Elevation == old(Elevation)
      ensures CurrentFrame() == old(CurrentFrame())
      ensures old(Valid()) ==> Valid()
    {
      if Elevation + change >= 0.0 && Elevation + change <= MaxElevation {
        Elevation := Elevation + change;
      }
    }

    /** Out-of-range requests leave the whole camera unchanged. */
    method SetElevation(newElevation: int)
      modifies this`Elevation, this`CameraVector, this`Axis1, this`Axis2
      ensures 0 <= newElevation <= 180 ==>
        Elevation == newElevation as real && CurrentFrame() == FrameOf(lib, Azimuth, Elevation)
      ensures !(0 <= newElevation <= 180) ==> unchanged(this)
      ensures old(Valid()) ==> Valid()
    {
      if newElevation >= 0 && newElevation <= 180 {
        Elevation := newElevation as real;
        CalculateCameraVector();
      }
    }
  }
}
