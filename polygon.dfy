/**
 * The triangular faces of shapes/Polygon.cs: three vertices and a unit surface
 * vector that is turned, by its sign alone, to point away from a reference
 * origin (the centre of the solid).
 */
module PolygonFace {
  import opened VectorMath

  /** The ArgumentException thrown for a group that is not a triangle. */
  datatype PolygonError = InvalidArity(count: nat)

  datatype Result<T> = Success(value: T) | Failure(error: PolygonError)

  /** The normal before orientation: Normalize(Cross(v1 - v0, v2 - v0)). */
  function RawNormal(lib: MathLib, v0: Vec3, v1: Vec3, v2: Vec3): Vec3 {
    lib.normalize(Cross(Sub(v1, v0), Sub(v2, v0)))
  }

  /**
   * The surface vector CalculateSurfaceVector stores: the raw normal, negated
   * when it points toward `origin` as seen from the first vertex.
   */
  function OrientedNormal(lib: MathLib, tri: seq<Vec3>, origin: Vec3): (n: Vec3)
    requires |tri| == 3
    ensures n == RawNormal(lib, tri[0], tri[1], tri[2]) || n == Neg(RawNormal(lib, tri[0], tri[1], tri[2]))
    ensures 0.0 <= Dot(Sub(tri[0], origin), n)
    ensures 0.0 <= Dot(Sub(tri[0], origin), RawNormal(lib, tri[0], tri[1], tri[2])) ==>
      n == RawNormal(lib, tri[0], tri[1], tri[2])
  {
    var directional := RawNormal(lib, tri[0], tri[1], tri[2]);
    var fromOrigin := Sub(tri[0], origin);
    if Dot(fromOrigin, directional) < 0.0 then
      DotNeg(fromOrigin, directional);
      Neg(directional)
    else
      directional
  }

  /**
   * The orientation does not depend on the winding order: listing the last two
   * vertices the other way round gives the same surface vector, unless the
   * first vertex lies in the plane through `origin` orthogonal to the normal.
   */
  lemma OrientationIgnoresWinding(lib: MathLib, v0: Vec3, v1: Vec3, v2: Vec3, origin: Vec3)
    requires OddNormalize(lib)
    requires Dot(Sub(v0, origin), RawNormal(lib, v0, v1, v2)) != 0.0
    ensures OrientedNormal(lib, [v0, v2, v1], origin) == OrientedNormal(lib, [v0, v1, v2], origin)
  {
    var c := Cross(Sub(v1, v0), Sub(v2, v0));
    CrossSwap(Sub(v1, v0), Sub(v2, v0));
    assert RawNormal(lib, v0, v2, v1) == lib.normalize(Neg(c));
    assert RawNormal(lib, v0, v2, v1) == Neg(RawNormal(lib, v0, v1, v2));
    DotNeg(Sub(v0, origin), RawNormal(lib, v0, v1, v2));
  }

  class Polygon {
    const lib: MathLib
    var Vertices: seq<Vec3>
    var SurfaceVector: Vec3

    ghost predicate Valid()
      reads this
    {
      |Vertices| == 3
    }

    /** The arity check is made by NewPolygon, the constructor's only caller. */
    constructor (group: seq<Vec3>, origin: Vec3, lib: MathLib)
      requires |group| == 3
      ensures Valid() && this.lib == lib
      ensures Vertices == group
      ensures SurfaceVector == OrientedNormal(lib, group, origin)
      ensures 0.0 <= Dot(Sub(Vertices[0], origin), SurfaceVector)
    {
      this.lib := lib;
      Vertices := group;
      SurfaceVector := Zero3;
      new;
      CalculateSurfaceVector(origin);
    }

    /**
     * Recomputes the surface vector from the vertices alone, never from its
     * old value, so a second call with the same origin stores the same vector.
     */
    method CalculateSurfaceVector(origin: Vec3)
      requires Valid()
      modifies this`SurfaceVector
      ensures SurfaceVector == OrientedNormal(lib, Vertices, origin)
      ensures 0.0 <= Dot(Sub(Vertices[0], origin), SurfaceVector)
    {
      var directional := Cross(Sub(Vertices[1], Vertices[0]), Sub(Vertices[2], Vertices[0]));
      directional := lib.normalize(directional);
      var fromOrigin := Sub(Vertices[0], origin);
      var dot1 := Dot(fromOrigin, directional);
      if dot1 < 0.0 {
        directional := Neg(directional);
      }
      SurfaceVector := directional;
    }
  }

  /** `new Polygon(group, origin)`: an ArgumentException unless the group has exactly three vertices. */
  method NewPolygon(group: seq<Vec3>, origin: Vec3, lib: MathLib) returns (r: Result<Polygon>)
    ensures r.Failure? <==> |group| != 3
    ensures r.Failure? ==> r.error == InvalidArity(|group|)
    ensures r.Success? ==> fresh(r.value) && r.value.Valid() && r.value.lib == lib
    ensures r.Success? ==> r.value.Vertices == group
    ensures r.Success? ==> r.value.SurfaceVector == OrientedNormal(lib, group, origin)
  {
    if |group| != 3 {
      return Failure(InvalidArity(|group|));
    }
    var p := new Polygon(group, origin, lib);
    r := Success(p);
  }
}
