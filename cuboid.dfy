/**
 * The animated solid of shapes/Cuboid.cs: eight vertices on two horizontal
 * rings of four, keyed 1..8 (key k + 4 directly below key k), rotated by an
 * integer phase in degrees, and twelve triangular faces built from a fixed
 * table of six four-key walls.
 */
module CuboidShape {
  import opened VectorMath
  import opened PolygonFace

  const MaxPhase: int := 360

  /** The keys of the vertex dictionary. */
  const VertexKeys: set<int> := set k | 1 <= k <= 8

  /** The walls of the solid, four vertex keys each. */
  const VerticeGroups: seq<seq<int>> := [
    [2, 3, 1, 4],
    [2, 3, 6, 7],
    [2, 1, 6, 5],
    [3, 4, 7, 8],
    [1, 4, 5, 8],
    [6, 7, 5, 8]
  ]

  /** Two triangles per wall. */
  const FaceCount: int := 12

  /** C#'s `%` on ints: the remainder of a truncating division, with the sign of the dividend. */
  function CsIntRem(a: int, m: int): (r: int)
    requires 0 < m
    ensures -m < r < m
    ensures 0 <= a ==> 0 <= r
    ensures a <= 0 ==> r <= 0
  {
    if 0 <= a then a % m else -((-a) % m)
  }

  /** The truncated remainder differs from the dividend by a whole multiple of m. */
  lemma CsIntRemCongruent(a: int, m: int)
    requires 0 < m
    ensures exists q: int :: a == q * m + CsIntRem(a, m)
  {
    if 0 <= a {
      assert a == (a / m) * m + CsIntRem(a, m);
    } else {
      assert a == -((-a) / m) * m + CsIntRem(a, m);
    }
  }

  /** A phase already in (-360, 360) is not changed by a zero increment. */
  lemma ZeroIncrementKeepsPhase(phase: int)
    requires -MaxPhase < phase < MaxPhase
    ensures CsIntRem(phase + 0, MaxPhase) == phase
  {
  }

  /** A full-turn increment restores a phase in [0, 360). */
  lemma FullTurnKeepsPhase(phase: int)
    requires 0 <= phase < MaxPhase
    ensures CsIntRem(phase + MaxPhase, MaxPhase) == phase
  {
  }

  /** The largest value of a 32-bit C# int. */
  const IntMax: int := 0x7fff_ffff

  /** Non-negative increments keep the phase in [0, 360) while the sum fits a 32-bit int. */
  lemma PhaseStaysInRange(phase: int, increment: int)
    requires 0 <= phase < MaxPhase && 0 <= increment
    requires phase + increment <= IntMax
    ensures 0 <= CsIntRem(phase + increment, MaxPhase) < MaxPhase
  {
  }

  /** The angle of the j-th of the four vertex columns, before the phase shift. */
  function ColumnAngle(lib: MathLib, j: int): real {
    lib.pi / 4.0 + (j as real) * (lib.pi / 2.0)
  }

  function PhaseShift(lib: MathLib, phase: int): real {
    (phase as real) / (MaxPhase as real) * 2.0 * lib.pi
  }

  /** Height of the upper ring (keys 1..4). */
  function UpperZ(lib: MathLib, origin: Vec3, size: real): real {
    origin.z + size * lib.cos(lib.pi / 4.0)
  }

  /** Height of the lower ring (keys 5..8). */
  function LowerZ(lib: MathLib, origin: Vec3, size: real): real {
    origin.z + size * lib.cos(3.0 * lib.pi / 4.0)
  }

  /** The point of column j at height z. */
  function ColumnPoint(lib: MathLib, origin: Vec3, size: real, phase: int, j: int, z: real): Vec3 {
    var angle := ColumnAngle(lib, j) + PhaseShift(lib, phase);
    Vec3(origin.x + size * lib.sin(angle), origin.y + size * lib.cos(angle), z)
  }

  /** The vertex with a given key: keys 1..4 on the upper ring, key k + 4 below key k. */
  function VertexAt(lib: MathLib, origin: Vec3, size: real, phase: int, key: int): Vec3
    requires key in VertexKeys
  {
    if key <= 4 then ColumnPoint(lib, origin, size, phase, key - 1, UpperZ(lib, origin, size))
    else ColumnPoint(lib, origin, size, phase, key - 5, LowerZ(lib, origin, size))
  }

  /** The whole vertex dictionary for a phase; it depends on nothing else. */
  function VertexLayout(lib: MathLib, origin: Vec3, size: real, phase: int): (m: map<int, Vec3>)
    ensures m.Keys == VertexKeys
  {
    map key | key in VertexKeys :: VertexAt(lib, origin, size, phase, key)
  }

  /** A dictionary holding exactly the keys 1..8, each with its layout vertex, is the layout. */
  lemma LayoutFromEntries(vertices: map<int, Vec3>, lib: MathLib, origin: Vec3, size: real, phase: int)
    requires ColumnsAdded(vertices, lib, origin, size, phase, 4)
    ensures vertices == VertexLayout(lib, origin, size, phase)
  {
    var m := VertexLayout(lib, origin, size, phase);
    assert vertices.Keys == m.Keys;
  }

  /** The dictionary after the first j columns have been added: keys 1..j and 5..j + 4. */
  ghost predicate ColumnsAdded(vertices: map<int, Vec3>, lib: MathLib, origin: Vec3, size: real, phase: int, j: int) {
    (forall k :: k in vertices <==> 1 <= k <= j || 5 <= k <= j + 4) &&
    (forall k :: k in vertices ==> k in VertexKeys && vertices[k] == VertexAt(lib, origin, size, phase, k))
  }

  /** Adding column j (keys j + 1 and j + 5) to a dictionary with columns 0..j - 1 adds fresh keys only. */
  lemma AddColumn(vertices: map<int, Vec3>, lib: MathLib, origin: Vec3, size: real, phase: int, j: int)
    requires 0 <= j < 4
    requires ColumnsAdded(vertices, lib, origin, size, phase, j)
    ensures j + 1 !in vertices
    ensures var upper := vertices[j + 1 := ColumnPoint(lib, origin, size, phase, j, UpperZ(lib, origin, size))];
      j + 5 !in upper &&
      ColumnsAdded(upper[j + 5 := ColumnPoint(lib, origin, size, phase, j, LowerZ(lib, origin, size))], lib, origin, size, phase, j + 1)
  {
  }

  /** Key k + 4 lies directly below key k. */
  lemma LayoutColumns(lib: MathLib, origin: Vec3, size: real, phase: int, k: int)
    requires 1 <= k <= 4
    ensures var m := VertexLayout(lib, origin, size, phase);
      m[k].x == m[k + 4].x && m[k].y == m[k + 4].y
  {
  }

  /** Keys 1..4 share the upper height, keys 5..8 the lower one. */
  lemma LayoutRings(lib: MathLib, origin: Vec3, size: real, phase: int, k: int)
    requires k in VertexKeys
    ensures var m := VertexLayout(lib, origin, size, phase);
      m[k].z == if k <= 4 then origin.z + size * lib.cos(lib.pi / 4.0)
                else origin.z + size * lib.cos(3.0 * lib.pi / 4.0)
  {
  }

  /** The number of the first n walls that contain `key`. */
  function WallsWith(key: int, n: nat): nat
    requires n <= |VerticeGroups|
  {
    if n == 0 then 0
    else WallsWith(key, n - 1) + (if key in VerticeGroups[n - 1] then 1 else 0)
  }

  /** Each wall of the table has four distinct keys of the dictionary. */
  lemma WallsAreQuads()
    ensures |VerticeGroups| == 6
    ensures forall g :: 0 <= g < |VerticeGroups| ==>
      |VerticeGroups[g]| == 4 &&
      (forall j :: 0 <= j < 4 ==> VerticeGroups[g][j] in VertexKeys) &&
      (forall i, j :: 0 <= i < j < 4 ==> VerticeGroups[g][i] != VerticeGroups[g][j])
  {
  }

  /** The wall table closes up: every vertex lies on exactly three walls, as on a cube. */
  lemma EveryVertexOnThreeWalls(key: int)
    requires key in VertexKeys
    ensures WallsWith(key, |VerticeGroups|) == 3
  {
    var counts := [WallsWith(key, 0), WallsWith(key, 1), WallsWith(key, 2), WallsWith(key, 3), WallsWith(key, 4), WallsWith(key, 5), WallsWith(key, 6)];
    assert counts[6] == counts[5] + (if key in [6, 7, 5, 8] then 1 else 0);
    assert counts[5] == counts[4] + (if key in [1, 4, 5, 8] then 1 else 0);
    assert counts[4] == counts[3] + (if key in [3, 4, 7, 8] then 1 else 0);
    assert counts[3] == counts[2] + (if key in [2, 1, 6, 5] then 1 else 0);
    assert counts[2] == counts[1] + (if key in [2, 3, 6, 7] then 1 else 0);
    assert counts[1] == (if key in [2, 3, 1, 4] then 1 else 0);
    assert 1 <= key <= 8;
  }

  /** The keys of face k: triangle i of wall g, with k == 2 * g + i. */
  function FaceKeys(k: int): (keys: seq<int>)
    requires 0 <= k < FaceCount
    ensures |keys| == 3
  {
    var group := VerticeGroups[k / 2];
    var i := k % 2;
    [group[0 + i], group[1 + i], group[2 + i]]
  }

  /** Every face names three distinct keys of the vertex dictionary. */
  lemma FaceKeysValid(k: int)
    requires 0 <= k < FaceCount
    ensures forall j :: 0 <= j < 3 ==> FaceKeys(k)[j] in VertexKeys
    ensures FaceKeys(k)[0] != FaceKeys(k)[1] && FaceKeys(k)[1] != FaceKeys(k)[2] && FaceKeys(k)[0] != FaceKeys(k)[2]
  {
    assert 0 <= k / 2 < 6;
    var g := k / 2;
    assert g == 0 || g == 1 || g == 2 || g == 3 || g == 4 || g == 5;
  }

  /** The two triangles of a wall share the edge between its second and third keys. */
  lemma WallTrianglesShareEdge(g: int)
    requires 0 <= g < 6
    ensures FaceKeys(2 * g)[1..] == FaceKeys(2 * g + 1)[..2]
  {
    assert (2 * g) / 2 == g && (2 * g + 1) / 2 == g;
  }

  /** The vertices of face k, looked up in `vertices`. */
  function FaceVertices(vertices: map<int, Vec3>, k: int): (tri: seq<Vec3>)
    requires 0 <= k < FaceCount
    requires VertexKeys <= vertices.Keys
    ensures |tri| == 3
  {
    FaceKeysValid(k);
    var keys := FaceKeys(k);
    [vertices[keys[0]], vertices[keys[1]], vertices[keys[2]]]
  }

  /** Face 2 * g + i takes keys i, i + 1 and i + 2 of wall g. */
  lemma FaceVerticesOfWall(vertices: map<int, Vec3>, g: int, i: int)
    requires 0 <= g < |VerticeGroups| && 0 <= i < 2
    requires VertexKeys <= vertices.Keys
    ensures var group := VerticeGroups[g];
      group[i] in vertices && group[i + 1] in vertices && group[i + 2] in vertices &&
      FaceVertices(vertices, 2 * g + i) == [vertices[group[i]], vertices[group[i + 1]], vertices[group[i + 2]]]
  {
    FaceKeysValid(2 * g + i);
    assert (2 * g + i) / 2 == g && (2 * g + i) % 2 == i;
  }

  /** Polygon p is face k of the dictionary `vertices`, oriented away from `origin`. */
  ghost predicate BuiltFace(p: Polygon, lib: MathLib, vertices: map<int, Vec3>, origin: Vec3, k: int)
    requires 0 <= k < FaceCount && VertexKeys <= vertices.Keys
    reads p
  {
    p.Valid() && p.lib == lib &&
    p.Vertices == FaceVertices(vertices, k) &&
    p.SurfaceVector == OrientedNormal(lib, p.Vertices, origin)
  }

  class Cuboid {
    const lib: MathLib
    var Rotation: real
    var Phase: int
    var Origin: Vec3
    var Size: real
    var Polygons: seq<Polygon>
    var Vertices: map<int, Vec3>

    /** The vertex dictionary always matches the current phase. */
    ghost predicate Valid()
      reads this
    {
      -MaxPhase < Phase < MaxPhase && Vertices == VertexLayout(lib, Origin, Size, Phase)
    }

    /** Face k was built from the keys of FaceKeys(k) in `vertices`, with `origin` as reference. */
    ghost predicate FacesBuiltFrom(vertices: map<int, Vec3>, origin: Vec3)
      reads this, Polygons
    {
      VertexKeys <= vertices.Keys &&
      |Polygons| == FaceCount &&
      forall k :: 0 <= k < FaceCount ==> BuiltFace(Polygons[k], lib, vertices, origin, k)
    }

    constructor (origin: Vec3, size: int, lib: MathLib)
      ensures Valid() && this.lib == lib
      ensures Phase == 0 && Rotation == 0.0 && Origin == origin && Size == size as real
      ensures Vertices == VertexLayout(lib, origin, size as real, 0)
      ensures FacesBuiltFrom(Vertices, Origin)
      ensures forall k :: 0 <= k < FaceCount ==> fresh(Polygons[k])
    {
      this.lib := lib;
      Vertices := map[];
      Rotation := 0.0;
      Phase := 0;
      Origin := origin;
      Size := size as real;
      Polygons := [];
      new;
      RecreateVerticesBy(0);
      InitializePolygons();
    }

    /**
     * The private RecreateVertices(int): advance the phase, clear the
     * dictionary and add the two vertices of each column. No key is added
     * twice, so Dictionary.Add never throws.
     */
    method RecreateVerticesBy(phaseIncrement: int)
      modifies this`Phase, this`Vertices
      ensures Phase == CsIntRem(old(Phase) + phaseIncrement, MaxPhase)
      ensures Vertices == VertexLayout(lib, Origin, Size, Phase)
      ensures 0 <= old(Phase) && 0 <= phaseIncrement ==> 0 <= Phase
      ensures Valid()
    {
      Phase := CsIntRem(Phase + phaseIncrement, MaxPhase);
      Vertices := map[];
      var key := 1;
      for j := 0 to 4
        modifies this`Vertices
        invariant key == j + 1
        invariant ColumnsAdded(Vertices, lib, Origin, Size, Phase, j)
      {
        AddColumn(Vertices, lib, Origin, Size, Phase, j);
        Vertices := Vertices[key := ColumnPoint(lib, Origin, Size, Phase, j, UpperZ(lib, Origin, Size))];
        Vertices := Vertices[key + 4 := ColumnPoint(lib, Origin, Size, Phase, j, LowerZ(lib, Origin, Size))];
        key := key + 1;
      }
      LayoutFromEntries(Vertices, lib, Origin, Size, Phase);
    }

    /**
     * The public RecreateVertices(): a zero increment keeps the phase and
     * rebuilds the dictionary from the current origin (a public field a caller
     * may have moved) and size; a dictionary that already matched stays as it was.
     */
    method RecreateVertices()
      requires -MaxPhase < Phase < MaxPhase
      modifies this`Phase, this`Vertices
      ensures Phase == old(Phase)
      ensures Vertices == VertexLayout(lib, Origin, Size, Phase)
      ensures Valid()
      ensures old(Valid()) ==> Vertices == old(Vertices)
    {
      ZeroIncrementKeepsPhase(Phase);
      RecreateVerticesBy(0);
    }

    /** Builds the twelve faces, triangle i of wall g at index 2 * g + i. */
    method InitializePolygons()
      requires VertexKeys <= Vertices.Keys
      modifies this`Polygons
      ensures FacesBuiltFrom(Vertices, Origin)
      ensures forall k :: 0 <= k < FaceCount ==> fresh(Polygons[k])
    {
      Polygons := [];
      for g := 0 to |VerticeGroups|
        invariant |Polygons| == 2 * g
        invariant forall k :: 0 <= k < 2 * g ==> fresh(Polygons[k]) && BuiltFace(Polygons[k], lib, Vertices, Origin, k)
      {
        var group := VerticeGroups[g];
        for i := 0 to 2
          invariant |Polygons| == 2 * g + i
          invariant forall k :: 0 <= k < 2 * g + i ==> fresh(Polygons[k]) && BuiltFace(Polygons[k], lib, Vertices, Origin, k)
        {
          FaceVerticesOfWall(Vertices, g, i);
          var r := NewPolygon([Vertices[group[0 + i]], Vertices[group[1 + i]], Vertices[group[2 + i]]], Origin, lib);
          // a three-vertex group never takes the ArgumentException path
          assert r.Success?;
          Polygons := Polygons + [r.value];
        }
      }
    }
  }
}
